/** The disabled-account alert: one stored flag per account must be enough to report every
    step from enabled to disabled, once, over any sequence of user snapshots. */
module DisabledAccounts {
  import opened Options
  import opened AzureAlertTables
  import opened Sequences

  datatype User = User(id: string, displayName: string, principalName: string, department: string, enabled: bool)

  type Table = map<string, bool>

  // ----- One evaluation ------------------------------------------------------------------------

  /** The table once a snapshot has been recorded. */
  function Recorded(table: Table, users: seq<User>): Table {
    if users == [] then table
    else
      var before, u := Recorded(table, users[..|users| - 1]), users[|users| - 1];
      if u.id == "" then before else before[u.id := u.enabled]
  }

  /** The users who turn from a stored enabled to disabled, in snapshot order. */
  function Disabled(table: Table, users: seq<User>): seq<User> {
    if users == [] then []
    else
      var before, u := users[..|users| - 1], users[|users| - 1];
      var t := Recorded(table, before);
      Disabled(table, before) + (if u.id != "" && u.id in t && t[u.id] && !u.enabled then [u] else [])
  }

  /** Some account of the snapshot already had a row when it was looked up. */
  function HasBaseline(table: Table, users: seq<User>): bool {
    users != [] &&
    (var before, u := users[..|users| - 1], users[|users| - 1];
    HasBaseline(table, before) || (u.id != "" && u.id in Recorded(table, before)))
  }

  /** What the evaluator returns, with its guard against a first run. */
  function Guarded(table: Table, users: seq<User>): seq<User> {
    if HasBaseline(table, users) then Disabled(table, users) else []
  }

  /** The guard never changes the result: without a stored row nothing was collected. */
  lemma {:induction false} GuardIsInvisible(table: Table, users: seq<User>)
    ensures Guarded(table, users) == Disabled(table, users)
  {
    if users != [] {
      GuardIsInvisible(table, users[..|users| - 1]);
    }
  }

  // ----- Runs of evaluations ---------------------------------------------------------------------

  function TableAfter(history: seq<seq<User>>): Table {
    if history == [] then map[] else Recorded(TableAfter(history[..|history| - 1]), history[|history| - 1])
  }

  function Times(users: seq<User>, id: string): nat {
    if users == [] then 0
    else Times(users[..|users| - 1], id) + (if users[|users| - 1].id == id then 1 else 0)
  }

  /** How often an account has been reported over a whole history. */
  function Reports(history: seq<seq<User>>, id: string): nat {
    if history == [] then 0
    else
      var before := history[..|history| - 1];
      Reports(before, id) + Times(Guarded(TableAfter(before), history[|history| - 1]), id)
  }

  /** The states in which a snapshot shows an account: none if it is absent. */
  function Seen(users: seq<User>, id: string): seq<bool> {
    if users == [] then []
    else
      var u := users[|users| - 1];
      Seen(users[..|users| - 1], id) + (if u.id == id then [u.enabled] else [])
  }

  function Observed(history: seq<seq<User>>, id: string): seq<bool> {
    if history == [] then [] else Observed(history[..|history| - 1], id) + Seen(history[|history| - 1], id)
  }

  /** The positions at which a state is disabled and the one before it was enabled. */
  function Drops(states: seq<bool>): set<nat> {
    set i: nat | i < |states| && DropAt(states, i) :: i
  }

  predicate DropAt(states: seq<bool>, i: nat)
    requires i < |states|
  {
    i > 0 && states[i - 1] && !states[i]
  }

  lemma DropsExtend(states: seq<bool>, state: bool)
    ensures Drops(states + [state]) ==
      Drops(states) + (if states != [] && states[|states| - 1] && !state then {|states|} else {})
    ensures |Drops(states + [state])| ==
      |Drops(states)| + (if states != [] && states[|states| - 1] && !state then 1 else 0)
  {
    var all, n := states + [state], |states|;
    var more: set<nat> := if states != [] && states[n - 1] && !state then {n} else {};
    forall i: nat ensures i in Drops(all) <==> i in Drops(states) || i in more {
      if i < n {
        assert DropAt(all, i) == DropAt(states, i);
      } else if i == n {
        assert all[n] == state && (n > 0 ==> all[n - 1] == states[n - 1]);
        assert DropAt(all, n) == (states != [] && states[n - 1] && !state);
      }
    }
    assert Drops(all) == Drops(states) + more;
  }

  /** The stored row of an account agrees with the states observed so far. */
  predicate Remembers(table: Table, states: seq<bool>, id: string) {
    (id in table <==> states != []) && (states != [] ==> table[id] == states[|states| - 1])
  }

  lemma {:induction false} SnapshotKeepsLastState(table: Table, users: seq<User>, states: seq<bool>, id: string)
    requires id != "" && Remembers(table, states, id)
    ensures Remembers(Recorded(table, users), states + Seen(users, id), id)
  {
    if users == [] {
      assert states + Seen(users, id) == states;
    } else {
      var before, u := users[..|users| - 1], users[|users| - 1];
      SnapshotKeepsLastState(table, before, states, id);
      var soFar := states + Seen(before, id);
      assert states + Seen(users, id) == soFar + (if u.id == id then [u.enabled] else []);
    }
  }

  lemma OneUserDrops(table: Table, states: seq<bool>, u: User, id: string)
    requires id != "" && Remembers(table, states, id)
    ensures |Drops(states + (if u.id == id then [u.enabled] else []))| ==
      |Drops(states)| + if u.id == id && id in table && table[id] && !u.enabled then 1 else 0
  {
    if u.id == id {
      DropsExtend(states, u.enabled);
    } else {
      assert states + [] == states;
    }
  }

  /** What a snapshot reports of an account is what it adds to the account's drops. */
  lemma {:induction false} SnapshotReportsDrops(table: Table, users: seq<User>, states: seq<bool>, id: string)
    requires id != "" && Remembers(table, states, id)
    ensures |Drops(states + Seen(users, id))| == |Drops(states)| + Times(Disabled(table, users), id)
  {
    if users == [] {
      assert states + Seen(users, id) == states;
    } else {
      var before, u := users[..|users| - 1], users[|users| - 1];
      SnapshotReportsDrops(table, before, states, id);
      SnapshotKeepsLastState(table, before, states, id);
      var soFar := states + Seen(before, id);
      assert states + Seen(users, id) == soFar + (if u.id == id then [u.enabled] else []);
      OneUserDrops(Recorded(table, before), soFar, u, id);
      TimesAppend(Disabled(table, before), u, id);
    }
  }

  lemma TimesAppend(users: seq<User>, u: User, id: string)
    ensures Times(users + [u], id) == Times(users, id) + (if u.id == id then 1 else 0)
    ensures Times(users + [], id) == Times(users, id)
  {
    assert (users + [u])[..|users|] == users;
    assert users + [] == users;
  }

  /** After any history the table holds the last observed state of every account seen. */
  lemma {:induction false} TableIsLastState(history: seq<seq<User>>, id: string)
    requires id != ""
    ensures Remembers(TableAfter(history), Observed(history, id), id)
  {
    if history != [] {
      var before := history[..|history| - 1];
      TableIsLastState(before, id);
      SnapshotKeepsLastState(TableAfter(before), history[|history| - 1], Observed(before, id), id);
    }
  }

  /** Over any history an account is reported as often as its observed states step from
      enabled to disabled; snapshots without the account are skipped. */
  lemma {:induction false} ReportsCountDrops(history: seq<seq<User>>, id: string)
    requires id != ""
    ensures Reports(history, id) == |Drops(Observed(history, id))|
  {
    if history != [] {
      var before, users := history[..|history| - 1], history[|history| - 1];
      ReportsCountDrops(before, id);
      TableIsLastState(before, id);
      SnapshotReportsDrops(TableAfter(before), users, Observed(before, id), id);
      GuardIsInvisible(TableAfter(before), users);
    }
  }

  /** An account without an id is never reported. */
  lemma {:induction false} BlankIdIsNeverReported(table: Table, users: seq<User>)
    ensures Times(Disabled(table, users), "") == 0
  {
    if users != [] {
      var before, u := users[..|users| - 1], users[|users| - 1];
      BlankIdIsNeverReported(table, before);
      TimesAppend(Disabled(table, before), u, "");
    }
  }

  /** What is reported are users of the snapshot as it shows them, disabled, in its order. */
  lemma {:induction false} ReportsAreUsers(table: Table, users: seq<User>) returns (places: seq<nat>)
    ensures Picks(places, users, Disabled(table, users))
    ensures forall u :: u in Disabled(table, users) ==> !u.enabled
  {
    places := [];
    if users != [] {
      var before, u := users[..|users| - 1], users[|users| - 1];
      assert users == before + [u];
      places := ReportsAreUsers(table, before);
      PicksGrow(places, before, Disabled(table, before), u);
      if Disabled(table, users) != Disabled(table, before) {
        places := places + [|before|];
      }
    }
  }

  // ----- The evaluator ---------------------------------------------------------------------------

  method EvaluateAccountsDisabled(store: AzureAlertStore, users: seq<User>) returns (matched: seq<User>)
    modifies store`userStates
    ensures store.userStates == Recorded(old(store.userStates), users)
    ensures matched == Disabled(old(store.userStates), users)
  {
    ghost var table := store.userStates;
    matched := [];
    var hasBaseline := false;
    for i := 0 to |users|
      invariant store.userStates == Recorded(table, users[..i])
      invariant matched == Disabled(table, users[..i])
      invariant hasBaseline == HasBaseline(table, users[..i])
    {
      assert users[..i + 1][..i] == users[..i];
      var u := users[i];
      if u.id != "" {
        var stored := store.GetUserState(u.id);
        if stored.Some? {
          hasBaseline := true;
          if stored.value && !u.enabled {
            matched := matched + [u];
          }
        }
        store.UpsertUserState(u.id, u.enabled);
      }
    }
    assert users[..|users|] == users;
    GuardIsInvisible(table, users);
    if !hasBaseline {
      return [];
    }
  }
}
