/**
 * `Admin`: the admin page. Only a signed-in user whose role is "admin" sees it; for them it lists
 * every machine name found in three tables (each once, sorted) and every user with the machines
 * assigned to them. The session, the role lookup and the table contents are supplied by the
 * caller.
 */
module Admin {
  import opened Wrappers
  import opened Seqs
  import opened AdminUserList

  /** The default order of `Array.prototype.sort` on strings: lexicographic by character. */
  predicate Before(a: string, b: string)
    decreases |a|
  {
    if a == [] then b != []
    else b != [] && (a[0] < b[0] || (a[0] == b[0] && Before(a[1..], b[1..])))
  }

  lemma {:induction false} BeforeIrreflexive(a: string)
    ensures !Before(a, a)
  {
    if a != [] {
      BeforeIrreflexive(a[1..]);
    }
  }

  lemma {:induction false} BeforeTransitive(a: string, b: string, c: string)
    requires Before(a, b) && Before(b, c)
    ensures Before(a, c)
  {
    if a != [] && a[0] == b[0] && b[0] == c[0] {
      BeforeTransitive(a[1..], b[1..], c[1..]);
    }
  }

  /** Two different strings are ordered one way or the other. */
  lemma {:induction false} BeforeTotal(a: string, b: string)
    requires a != b
    ensures Before(a, b) || Before(b, a)
  {
    if a != [] && b != [] && a[0] == b[0] {
      assert a == [a[0]] + a[1..] && b == [b[0]] + b[1..];
      BeforeTotal(a[1..], b[1..]);
    }
  }

  /** Strictly increasing, hence without repetitions. */
  predicate StrictlySorted(xs: seq<string>)
  {
    forall i, j :: 0 <= i < j < |xs| ==> Before(xs[i], xs[j])
  }

  /** In a strictly increasing list every element occurs exactly once. */
  lemma StrictlySortedDistinct(xs: seq<string>, i: nat, j: nat)
    requires StrictlySorted(xs) && i < |xs| && j < |xs| && xs[i] == xs[j]
    ensures i == j
  {
    if i < j {
      BeforeIrreflexive(xs[i]);
    } else if j < i {
      BeforeIrreflexive(xs[j]);
    }
  }

  /** Puts a new string into its place in a strictly increasing list. */
  function Insert(x: string, xs: seq<string>): (r: seq<string>)
    requires StrictlySorted(xs) && x !in xs
    ensures StrictlySorted(r)
    ensures forall y :: y in r <==> y == x || y in xs
    ensures |r| == |xs| + 1
  {
    if xs == [] then [x]
    else if Before(x, xs[0]) then
      assert forall j :: 0 <= j < |xs| ==> Before(x, xs[j]) by {
        forall j | 0 <= j < |xs| ensures Before(x, xs[j]) {
          if j > 0 { BeforeTransitive(x, xs[0], xs[j]); }
        }
      }
      [x] + xs
    else
      BeforeTotal(x, xs[0]);
      var tail := Insert(x, xs[1..]);
      assert forall y :: y in xs[1..] ==> Before(xs[0], y) by {
        forall y | y in xs[1..] ensures Before(xs[0], y) {
          var j :| 0 <= j < |xs[1..]| && xs[1..][j] == y;
          assert xs[j + 1] == y;
        }
      }
      assert xs == [xs[0]] + xs[1..];
      [xs[0]] + tail
  }

  /** What `refreshData` reads from one table: `null` data adds nothing. */
  function Present(names: Option<seq<string>>): (r: seq<string>)
    ensures names.None? ==> r == []
    ensures names.Some? ==> r == names.value
  {
    if names.Some? then names.value else []
  }

  /**
   * The machine list of `refreshData`: the names from the tool-change table, the compensation
   * table and the assignment table are added to a set, which is then sorted. Every name from any
   * table appears, and appears exactly once.
   */
  method CollectMachines(toolChangeMachines: Option<seq<string>>, compensationMachines: Option<seq<string>>,
                         assignedMachines: Option<seq<string>>) returns (machines: seq<string>)
    ensures StrictlySorted(machines)
    ensures forall m :: m in machines <==>
      m in Present(toolChangeMachines) || m in Present(compensationMachines) || m in Present(assignedMachines)
  {
    var machinesSet: set<string> := {};
    var sources := [Present(toolChangeMachines), Present(compensationMachines), Present(assignedMachines)];
    for s := 0 to 3
      invariant forall m :: m in machinesSet <==> exists t :: 0 <= t < s && m in sources[t]
    {
      var names := sources[s];
      for i := 0 to |names|
        invariant forall m :: m in machinesSet <==> (exists t :: 0 <= t < s && m in sources[t]) || m in names[..i]
      {
        machinesSet := machinesSet + {names[i]};
        assert names[..i + 1] == names[..i] + [names[i]];
      }
      assert names[..|names|] == names;
    }
    assert forall m :: m in machinesSet <==> m in sources[0] || m in sources[1] || m in sources[2];
    machines := [];
    var rest := machinesSet;
    while rest != {}
      invariant StrictlySorted(machines)
      invariant forall m :: m in machinesSet <==> m in machines || m in rest
      invariant forall m :: m in rest ==> m !in machines
      decreases |rest|
    {
      var m :| m in rest;
      machines := Insert(m, machines);
      rest := rest - {m};
    }
  }

  /** A row of `profiles`. */
  datatype Profile = Profile(id: string, username: string)

  /** A user with the machines assigned to them. */
  datatype User = User(id: string, username: string, machines: seq<string>)

  /** The machines assigned to `userId`, in the order the assignments were fetched. */
  function MachinesOf(assignments: seq<Assignment>, userId: string): (machines: seq<string>)
    ensures |machines| <= |assignments|
    ensures forall m :: m in machines <==> Assignment(userId, m) in assignments
  {
    if assignments == [] then []
    else
      var rest := MachinesOf(assignments[1..], userId);
      assert forall a :: a in assignments <==> a == assignments[0] || a in assignments[1..];
      if assignments[0].userId == userId then [assignments[0].machine] + rest else rest
  }

  /** `MachinesOf` keeps each user's assignments in fetched order: it distributes over concatenation. */
  lemma {:induction false} MachinesOfAppend(a: seq<Assignment>, b: seq<Assignment>, userId: string)
    ensures MachinesOf(a + b, userId) == MachinesOf(a, userId) + MachinesOf(b, userId)
  {
    if a != [] {
      assert (a + b)[1..] == a[1..] + b;
      MachinesOfAppend(a[1..], b, userId);
    } else {
      assert a + b == b;
    }
  }

  /** The user-assignment join: every profile, in order, with its machines or `[]` without data. */
  function UsersOf(profiles: seq<Profile>, assignments: Option<seq<Assignment>>): (users: seq<User>)
    ensures |users| == |profiles|
    ensures forall i :: 0 <= i < |users| ==>
      && users[i].id == profiles[i].id && users[i].username == profiles[i].username
      && (assignments.None? ==> users[i].machines == [])
      && (assignments.Some? ==> forall m :: m in users[i].machines <==> Assignment(profiles[i].id, m) in assignments.value)
    ensures assignments.Some? ==>
      forall i :: 0 <= i < |users| ==> users[i].machines == MachinesOf(assignments.value, profiles[i].id)
  {
    seq(|profiles|, i requires 0 <= i < |profiles| =>
      User(profiles[i].id, profiles[i].username,
           if assignments.Some? then MachinesOf(assignments.value, profiles[i].id) else []))
  }

  const DenialText: string := "Du har inte beh\U{00F6}righet att se denna sida."
  const RefreshFailedPrefix: string := "Kunde inte h\U{00E4}mta anv\U{00E4}ndare eller maskiner: "

  /** `err.message || err`: an `Error` with an empty message prints as "Error". */
  function ErrorText(message: string): (text: string)
    ensures message != "" ==> text == message
    ensures message == "" ==> text == "Error"
  {
    if message != "" then message else "Error"
  }

  /** A row of `user_roles`. */
  datatype RoleRow = RoleRow(userId: string, role: string)

  /** The `user_roles` rows of one user. */
  function RowsOf(rows: seq<RoleRow>, userId: string): (mine: seq<RoleRow>)
    ensures forall i :: 0 <= i < |mine| ==> mine[i] in rows && mine[i].userId == userId
    ensures forall r :: r in rows && r.userId == userId ==> r in mine
  {
    var mine := Filter(rows, (r: RoleRow) => r.userId == userId);
    assert forall r :: r in rows && r.userId == userId ==> r in mine by {
      forall r | r in rows && r.userId == userId ensures r in mine {
        var i :| 0 <= i < |rows| && rows[i] == r;
      }
    }
    mine
  }

  /**
   * `.select("role").eq("user_id", userId).single()`: the role when the user has exactly one row;
   * no row, or more than one, gives an error and no data.
   */
  function SingleRole(rows: seq<RoleRow>, userId: string): (role: Option<string>)
    ensures role.Some? <==> |RowsOf(rows, userId)| == 1
    ensures role.Some? ==> RoleRow(userId, role.value) in rows
    ensures role.Some? ==> forall r :: r in rows && r.userId == userId ==> r.role == role.value
  {
    var mine := RowsOf(rows, userId);
    if |mine| == 1 then Some(mine[0].role) else None
  }

  /** A user with two admin rows is not let in: `.single()` fails on them. */
  lemma DuplicateAdminRowsDeny(userId: string)
    ensures SingleRole([RoleRow(userId, "admin"), RoleRow(userId, "admin")], userId) == None
  {
    var rows := [RoleRow(userId, "admin"), RoleRow(userId, "admin")];
    var mine := RowsOf(rows, userId);
    assert rows[0] in mine;
    assert |Filter(rows[1..], (r: RoleRow) => r.userId == userId)| == 1;
  }

  class AdminPage {
    var loading: bool
    var isAdmin: bool
    var machines: seq<string>
    var users: seq<User>
    var error: Option<string>

    constructor()
      ensures loading && !isAdmin && machines == [] && users == [] && error == None
    {
      loading := true;
      isAdmin := false;
      machines := [];
      users := [];
      error := None;
    }

    /** The denial text is shown to a non-admin once loading is over. */
    predicate ShowsDenial()
      reads this
    {
      !isAdmin && !loading
    }

    /**
     * The privilege check on load: without a signed-in user, or unless `.single()` finds exactly
     * one `user_roles` row for the user and its role is "admin", the user is not an admin.
     */
    method CheckAdmin(sessionUser: Option<string>, roles: seq<RoleRow>)
      modifies this
      ensures isAdmin <==> sessionUser.Some? && SingleRole(roles, sessionUser.value) == Some("admin")
      ensures !loading && error == None
      ensures machines == old(machines) && users == old(users)
    {
      loading := true;
      error := None;
      if sessionUser.None? {
        isAdmin := false;
        loading := false;
        return;
      }
      isAdmin := SingleRole(roles, sessionUser.value) == Some("admin");
      loading := false;
    }

    /**
     * `refreshData`: the machine list is set first; then a failed profile fetch sets the error
     * and keeps the previous users, while a successful one sets the joined users.
     */
    method RefreshData(toolChangeMachines: Option<seq<string>>, compensationMachines: Option<seq<string>>,
                       assignedMachines: Option<seq<string>>, profiles: Result<seq<Profile>, string>,
                       assignments: Option<seq<Assignment>>)
      modifies this
      ensures !loading && isAdmin == old(isAdmin)
      ensures StrictlySorted(machines)
      ensures forall m :: m in machines <==>
        m in Present(toolChangeMachines) || m in Present(compensationMachines) || m in Present(assignedMachines)
      ensures profiles.Err? ==> error == Some(RefreshFailedPrefix + ErrorText(profiles.error)) && users == old(users)
      ensures profiles.Ok? ==> error == None && users == UsersOf(profiles.value, assignments)
    {
      loading := true;
      error := None;
      machines := CollectMachines(toolChangeMachines, compensationMachines, assignedMachines);
      if profiles.Err? {
        error := Some(RefreshFailedPrefix + ErrorText(profiles.error));
        loading := false;
        return;
      }
      users := UsersOf(profiles.value, assignments);
      loading := false;
    }

    /** The effect on `isAdmin`: refresh only for an admin; for anyone else nothing changes. */
    method OnAdminChecked(toolChangeMachines: Option<seq<string>>, compensationMachines: Option<seq<string>>,
                          assignedMachines: Option<seq<string>>, profiles: Result<seq<Profile>, string>,
                          assignments: Option<seq<Assignment>>)
      modifies this
      ensures !old(isAdmin) ==>
        loading == old(loading) && isAdmin == old(isAdmin) && machines == old(machines) && users == old(users) && error == old(error)
      ensures old(isAdmin) ==> !loading && !ShowsDenial() && StrictlySorted(machines)
      ensures old(isAdmin) ==> forall m :: m in machines <==>
        m in Present(toolChangeMachines) || m in Present(compensationMachines) || m in Present(assignedMachines)
      ensures old(isAdmin) && profiles.Err? ==>
        error == Some(RefreshFailedPrefix + ErrorText(profiles.error)) && users == old(users)
      ensures old(isAdmin) && profiles.Ok? ==> error == None && users == UsersOf(profiles.value, assignments)
    {
      if isAdmin {
        RefreshData(toolChangeMachines, compensationMachines, assignedMachines, profiles, assignments);
      }
    }
  }
}
