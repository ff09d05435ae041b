/** The administration screen (components/AdminPanel.tsx): the user table
    with its status toggle and delete actions, the bar chart's scaling, the
    tab switch and the stat cards' sign rule.

    The two table actions are split at their `await`. Both build the new
    list from the `users` array their closure captured when the button was
    clicked, so `Begin…` hands that snapshot back and `End…` takes it. */
module AdminPanel {
  import opened Types
  import opened Strings

  // ---------------------------------------------------------------------
  // Table updates
  // ---------------------------------------------------------------------

  /** The status a toggle moves to: Ativo and Suspenso swap. */
  function Opposite(status: AccountStatus): (next: AccountStatus)
    ensures next != status
  {
    if status == Ativo then Suspenso else Ativo
  }

  lemma OppositeInvolutive(status: AccountStatus)
    ensures Opposite(Opposite(status)) == status
  {
  }

  /** `users.map(u => u.id === id ? { ...u, status } : u)` */
  function WithStatus(users: seq<AdminUser>, id: string, status: AccountStatus): (r: seq<AdminUser>)
    ensures |r| == |users|
    ensures forall k :: 0 <= k < |users| && users[k].id == id ==> r[k] == users[k].(status := status)
    ensures forall k :: 0 <= k < |users| && users[k].id != id ==> r[k] == users[k]
  {
    seq(|users|, k requires 0 <= k < |users| => if users[k].id == id then users[k].(status := status) else users[k])
  }

  /** `users.filter(u => u.id !== id)` */
  function WithoutUser(users: seq<AdminUser>, id: string): (r: seq<AdminUser>)
    ensures |r| <= |users|
    ensures forall u :: u in r <==> u in users && u.id != id
  {
    if users == [] then []
    else (if users[0].id == id then [] else [users[0]]) + WithoutUser(users[1..], id)
  }

  /** The filter works row by row, so it keeps the remaining rows in their
      order: filtering a concatenation filters each part. */
  lemma {:induction false} WithoutUserSplits(a: seq<AdminUser>, b: seq<AdminUser>, id: string)
    ensures WithoutUser(a + b, id) == WithoutUser(a, id) + WithoutUser(b, id)
  {
    if a == [] {
      assert a + b == b;
    } else {
      assert (a + b)[1..] == a[1..] + b;
      WithoutUserSplits(a[1..], b, id);
    }
  }

  /** An id no row carries leaves both updates without effect. */
  lemma {:induction false} UnknownIdIsNoOp(users: seq<AdminUser>, id: string, status: AccountStatus)
    requires forall k :: 0 <= k < |users| ==> users[k].id != id
    ensures WithStatus(users, id, status) == users
    ensures WithoutUser(users, id) == users
  {
    if users != [] {
      UnknownIdIsNoOp(users[1..], id, status);
    }
  }

  /** A table action the screen can settle. */
  datatype UserAction = SetStatus(id: string, status: AccountStatus) | Remove(id: string)

  /** The list an action's success leaves, computed from `users`. */
  function ApplyAction(users: seq<AdminUser>, action: UserAction): seq<AdminUser>
  {
    match action
    case SetStatus(id, status) => WithStatus(users, id, status)
    case Remove(id) => WithoutUser(users, id)
  }

  lemma WithStatusSplits(a: seq<AdminUser>, b: seq<AdminUser>, id: string, status: AccountStatus)
    ensures WithStatus(a + b, id, status) == WithStatus(a, id, status) + WithStatus(b, id, status)
  {
  }

  /** A status change and a removal give the same list in either order. */
  lemma {:induction false} StatusThenRemove(users: seq<AdminUser>, a: string, status: AccountStatus, b: string)
    ensures WithoutUser(WithStatus(users, a, status), b) == WithStatus(WithoutUser(users, b), a, status)
  {
    if users != [] {
      var rest := users[1..];
      StatusThenRemove(rest, a, status, b);
      var w := WithStatus(users, a, status);
      WithStatusSplits([users[0]], rest, a, status);
      assert users == [users[0]] + rest;
      assert w[0].id == users[0].id && w[1..] == WithStatus(rest, a, status);
      var head := if users[0].id == b then [] else [users[0]];
      WithStatusSplits(head, WithoutUser(rest, b), a, status);
    }
  }

  /** Two removals commute. */
  lemma {:induction false} RemoveThenRemove(users: seq<AdminUser>, a: string, b: string)
    ensures WithoutUser(WithoutUser(users, a), b) == WithoutUser(WithoutUser(users, b), a)
  {
    if users != [] {
      RemoveThenRemove(users[1..], a, b);
      var headA := if users[0].id == a then [] else [users[0]];
      var headB := if users[0].id == b then [] else [users[0]];
      WithoutUserSplits(headA, WithoutUser(users[1..], a), b);
      WithoutUserSplits(headB, WithoutUser(users[1..], b), a);
    }
  }

  /** Settling two actions on different users against the CURRENT list
      gives one result whatever order they settle in, and that result holds
      both effects. */
  lemma ActionsCommute(users: seq<AdminUser>, x: UserAction, y: UserAction)
    requires x.id != y.id
    ensures ApplyAction(ApplyAction(users, x), y) == ApplyAction(ApplyAction(users, y), x)
  {
    match (x, y)
    case (SetStatus(a, s), SetStatus(b, t)) =>
      assert WithStatus(WithStatus(users, a, s), b, t) == WithStatus(WithStatus(users, b, t), a, s);
    case (SetStatus(a, s), Remove(b)) =>
      StatusThenRemove(users, a, s, b);
    case (Remove(a), SetStatus(b, t)) =>
      StatusThenRemove(users, b, t, a);
    case (Remove(a), Remove(b)) =>
      RemoveThenRemove(users, a, b);
  }

  /** As written, each action's success recomputes the list from its own
      click-time snapshot. With the seeded rows, deleting u2 and then, while
      that call is still pending, suspending u1: the delete settles first
      and shows `[u1]`, then the suspension settles from its snapshot, taken
      before the delete, and u2 is shown again although the service removed
      it. Settling both against the current list leaves u2 out. */
  lemma StaleSnapshotLosesUpdate()
    ensures var rows := [
        AdminUser("u1", "Alice", "alice@example.com", "Premium", Ativo, None),
        AdminUser("u2", "Bob", "bob@example.com", "Gratuito", Ativo, None)];
      var suspend := SetStatus("u1", Suspenso);
      var delete := Remove("u2");
      && ApplyAction(rows, delete) == [rows[0]]
      && |ApplyAction(rows, suspend)| == 2 && ApplyAction(rows, suspend)[1] == rows[1]
      && forall u :: u in ApplyAction(ApplyAction(rows, delete), suspend) ==> u.id != "u2"
  {
    var rows := [
      AdminUser("u1", "Alice", "alice@example.com", "Premium", Ativo, None),
      AdminUser("u2", "Bob", "bob@example.com", "Gratuito", Ativo, None)];
    assert WithoutUser(rows, "u2") == [rows[0]] + WithoutUser(rows[1..], "u2");
    assert WithoutUser(rows[1..], "u2") == [];
  }

  // ---------------------------------------------------------------------
  // Bar chart
  // ---------------------------------------------------------------------

  datatype ChartPoint = ChartPoint(name: string, users: int, premium: int)

  const ChartData: seq<ChartPoint> := [
    ChartPoint("Jan", 400, 240),
    ChartPoint("Fev", 300, 139),
    ChartPoint("Mar", 200, 480),
    ChartPoint("Abr", 278, 390),
    ChartPoint("Mai", 189, 480),
    ChartPoint("Jun", 239, 380),
    ChartPoint("Jul", 349, 430)
  ]

  function MaxInt(a: int, b: int): int { if a >= b then a else b }

  /** `Math.max(...data.map(d => Math.max(d.users, d.premium)))`; None for
      an empty series, where the source gets -Infinity. */
  function MaxValue(data: seq<ChartPoint>): (m: Option<int>)
    ensures data == [] <==> m.None?
    ensures m.Some? ==> forall k :: 0 <= k < |data| ==> data[k].users <= m.value && data[k].premium <= m.value
    ensures m.Some? ==> exists k :: 0 <= k < |data| && (data[k].users == m.value || data[k].premium == m.value)
  {
    if data == [] then None
    else
      var here := MaxInt(data[0].users, data[0].premium);
      var rest := MaxValue(data[1..]);
      if rest.None? then Some(here)
      else
        assert exists k :: 0 <= k < |data[1..]| && (data[1..][k].users == rest.value || data[1..][k].premium == rest.value);
        var k :| 0 <= k < |data[1..]| && (data[1..][k].users == rest.value || data[1..][k].premium == rest.value);
        assert data[k + 1] == data[1..][k];
        Some(MaxInt(here, rest.value))
  }

  /** A bar's height in percent of the chart. */
  function BarHeight(value: int, maxValue: int): real
    requires maxValue > 0
  {
    (value as real / maxValue as real) * 100.0
  }

  lemma HeightFits(value: int, maxValue: int)
    requires 0 <= value <= maxValue && maxValue > 0
    ensures 0.0 <= BarHeight(value, maxValue) <= 100.0
    ensures value == maxValue ==> BarHeight(value, maxValue) == 100.0
  {
    assert value as real / maxValue as real <= 1.0;
  }

  /** With non-negative data and a positive maximum every bar fits in the
      chart, and the tallest bar fills it. */
  lemma BarsFit(data: seq<ChartPoint>, k: nat)
    requires forall i :: 0 <= i < |data| ==> data[i].users >= 0 && data[i].premium >= 0
    requires k < |data| && MaxValue(data).Some? && MaxValue(data).value > 0
    ensures var m := MaxValue(data).value;
      0.0 <= BarHeight(data[k].users, m) <= 100.0 && 0.0 <= BarHeight(data[k].premium, m) <= 100.0
  {
    var m := MaxValue(data).value;
    HeightFits(data[k].users, m);
    HeightFits(data[k].premium, m);
  }

  /** The chart as shipped is scaled to 480. */
  lemma ChartDataScale()
    ensures MaxValue(ChartData) == Some(480)
  {
    assert MaxValue(ChartData[6..]) == Some(430);
    assert MaxValue(ChartData[5..]) == Some(430);
    assert MaxValue(ChartData[4..]) == Some(480);
    assert MaxValue(ChartData[3..]) == Some(480);
    assert MaxValue(ChartData[2..]) == Some(480);
    assert MaxValue(ChartData[1..]) == Some(480);
  }

  // ---------------------------------------------------------------------
  // Tabs and stat cards
  // ---------------------------------------------------------------------

  datatype Tab = DashboardTab | UsersTab | PlansTab | BackendTab
  {
    /** The `tabLabels` key of the tab. */
    function Key(): string
    {
      match this
      case DashboardTab => "dashboard"
      case UsersTab => "users"
      case PlansTab => "plans"
      case BackendTab => "backend"
    }
  }

  /** `renderContent`: the tab for `activeTab`, the dashboard for a key the
      switch does not list. */
  function RenderContent(activeTab: string): (tab: Tab)
    ensures activeTab !in {"dashboard", "users", "plans", "backend"} ==> tab == DashboardTab
    ensures activeTab in {"dashboard", "users", "plans", "backend"} ==> tab.Key() == activeTab
  {
    match activeTab
    case "dashboard" => DashboardTab
    case "users" => UsersTab
    case "plans" => PlansTab
    case "backend" => BackendTab
    case _ => DashboardTab
  }

  /** Clicking a tab button renders that tab. */
  lemma TabButtonsRenderTheirTab(tab: Tab)
    ensures RenderContent(tab.Key()) == tab
  {
  }

  /** The stat card's colour rule: a change is positive exactly when its
      text starts with '+'. */
  predicate ChangeIsPositive(change: string)
  {
    StartsWith(change, "+")
  }

  const StatChanges: seq<string> := ["+5.2%", "+12.1%", "-1.8%", "+8.9%"]

  /** Of the four cards only "Análises/Dia" shows a negative change. */
  lemma OnlyThirdCardNegative()
    ensures forall i :: 0 <= i < |StatChanges| ==> (ChangeIsPositive(StatChanges[i]) <==> i != 2)
  {
    assert ChangeIsPositive(StatChanges[0]) && ChangeIsPositive(StatChanges[1]) && ChangeIsPositive(StatChanges[3]);
    assert StatChanges[2][..1] == "-";
  }

  // ---------------------------------------------------------------------
  // User table state
  // ---------------------------------------------------------------------

  class UserManagement {
    var users: seq<AdminUser>
    var loading: bool
    var actionLoading: Option<string>

    /** The initial state of `useState`. */
    constructor ()
      ensures users == [] && loading && actionLoading == None
    {
      users := [];
      loading := true;
      actionLoading := None;
    }

    /** `fetchUsers` settling: the list is replaced on success, the loading
        flag cleared either way. */
    method EndFetchUsers(response: Option<seq<AdminUser>>)
      modifies this
      ensures users == (if response.Some? then response.value else old(users))
      ensures !loading && actionLoading == old(actionLoading)
    {
      if response.Some? {
        users := response.value;
      }
      loading := false;
    }

    /** `handleToggleStatus(id, currentStatus)` up to its `await`: the
        action asks for the opposite status and the row's spinner shows. */
    method BeginToggleStatus(id: string, currentStatus: AccountStatus) returns (action: UserAction, snapshot: seq<AdminUser>)
      modifies this
      ensures action == SetStatus(id, Opposite(currentStatus))
      ensures snapshot == users == old(users)
      ensures actionLoading == Some(id) && loading == old(loading)
    {
      action := SetStatus(id, Opposite(currentStatus));
      snapshot := users;
      actionLoading := Some(id);
    }

    /** `handleDelete(id)` up to its `await`. A declined confirmation ends
        the handler with nothing changed. */
    method BeginDelete(id: string, confirmed: bool) returns (started: bool, action: UserAction, snapshot: seq<AdminUser>)
      modifies this
      ensures started == confirmed
      ensures !confirmed ==> unchanged(this)
      ensures confirmed ==> actionLoading == Some(id) && users == old(users) && loading == old(loading)
      ensures action == Remove(id) && snapshot == old(users)
    {
      started := confirmed;
      action := Remove(id);
      snapshot := users;
      if confirmed {
        actionLoading := Some(id);
      }
    }

    /** Either action after its service call settled: on success the list
        becomes the click-time snapshot with the action applied; on failure
        the list stays; the spinner is cleared either way. */
    method EndAction(action: UserAction, snapshot: seq<AdminUser>, succeeded: bool)
      modifies this
      ensures succeeded ==> users == ApplyAction(snapshot, action)
      ensures !succeeded ==> users == old(users)
      ensures actionLoading == None && loading == old(loading)
    {
      if succeeded {
        match action
        case SetStatus(id, status) =>
          users := WithStatus(snapshot, id, status);
        case Remove(id) =>
          users := WithoutUser(snapshot, id);
      }
      actionLoading := None;
    }

    /** The evidently intended settling, a functional update
        `setUsers(prev => …)`: the action is applied to the list as it is
        when the call settles, so by `ActionsCommute` two actions on
        different users both show, in either settling order. */
    method EndActionOnCurrent(action: UserAction, succeeded: bool)
      modifies this
      ensures succeeded ==> users == ApplyAction(old(users), action)
      ensures !succeeded ==> users == old(users)
      ensures actionLoading == None && loading == old(loading)
    {
      if succeeded {
        users := ApplyAction(users, action);
      }
      actionLoading := None;
    }

    /** One toggle with no other action in flight: the row with that id
        alone gets the opposite status; every other row is unchanged. */
    method ToggleStatus(id: string, currentStatus: AccountStatus, succeeded: bool)
      modifies this
      ensures |users| == |old(users)| && actionLoading == None && loading == old(loading)
      ensures forall k :: 0 <= k < |users| ==>
        users[k] == (if succeeded && old(users)[k].id == id then old(users)[k].(status := Opposite(currentStatus)) else old(users)[k])
    {
      var action, snapshot := BeginToggleStatus(id, currentStatus);
      EndAction(action, snapshot, succeeded);
    }

    /** One confirmed delete with no other action in flight: exactly the
        rows with that id disappear and the others keep their order. */
    method Delete(id: string, confirmed: bool, succeeded: bool)
      modifies this
      ensures confirmed && succeeded ==> users == WithoutUser(old(users), id)
      ensures !(confirmed && succeeded) ==> users == old(users)
      ensures forall u :: u in users <==> u in old(users) && (u.id != id || !(confirmed && succeeded))
      ensures actionLoading == (if confirmed then None else old(actionLoading)) && loading == old(loading)
    {
      var started, action, snapshot := BeginDelete(id, confirmed);
      if started {
        EndAction(action, snapshot, succeeded);
      }
    }
  }
}
