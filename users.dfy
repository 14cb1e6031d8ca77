/** The Users screen: a list of member accounts, a filter bar whose
    criteria are combined by AND, a selection of ids and single and bulk
    moderation actions (ban, suspend, delete, verify, password reset). */
module Users {
  import opened Seqs
  import opened Text
  import Selection

  datatype UserStatus = Active | Inactive | Suspended | Banned

  /** The string the filter drop-down compares a status with. */
  function StatusName(s: UserStatus): string
  {
    match s
    case Active => "active"
    case Inactive => "inactive"
    case Suspended => "suspended"
    case Banned => "banned"
  }

  /** A member account; display-only fields (join date, bio, picture,
      report count, ...) are not part of the model. */
  datatype User = User(
    id: int,
    name: string,
    email: string,
    age: int,
    gender: string,
    location: string,
    status: UserStatus,
    verified: bool,
    interests: seq<string>)

  datatype FilterOptions = FilterOptions(
    status: string,
    verified: string,
    gender: string,
    ageMin: int,
    ageMax: int,
    search: string)

  /** The filters the screen starts with. */
  const DefaultFilters := FilterOptions("all", "all", "all", 18, 80, "")

  // ---------------------------------------------------------------------
  // The filter effect, one step per `if` block, applied in source order.

  function ByStatus(s: seq<User>, f: FilterOptions): seq<User>
  {
    if f.status != "all" then Filter((u: User) => StatusName(u.status) == f.status, s) else s
  }

  function ByVerified(s: seq<User>, f: FilterOptions): seq<User>
  {
    if f.verified != "all" then Filter((u: User) => if f.verified == "verified" then u.verified else !u.verified, s)
    else s
  }

  function ByGender(s: seq<User>, f: FilterOptions): seq<User>
  {
    if f.gender != "all" then Filter((u: User) => u.gender == f.gender, s) else s
  }

  /** The age range is applied whatever the other criteria are. */
  function ByAge(s: seq<User>, f: FilterOptions): seq<User>
  {
    Filter((u: User) => u.age >= f.ageMin && u.age <= f.ageMax, s)
  }

  /** `query` (already lower-cased) occurs in the lower-cased name, email or
      location, or in one of the lower-cased interests. */
  predicate SearchHit(u: User, query: string)
  {
    Contains(Lower(u.name), query) || Contains(Lower(u.email), query) ||
    Contains(Lower(u.location), query) ||
    exists k :: 0 <= k < |u.interests| && Contains(Lower(u.interests[k]), query)
  }

  /** An empty search string applies no restriction. */
  function BySearch(s: seq<User>, f: FilterOptions): seq<User>
  {
    if f.search != "" then Filter((u: User) => SearchHit(u, Lower(f.search)), s) else s
  }

  /** The filter effect: the visible list for `users` under `f`. */
  function FilterUsers(users: seq<User>, f: FilterOptions): (r: seq<User>)
    ensures |r| <= |users|
  {
    BySearch(ByAge(ByGender(ByVerified(ByStatus(users, f), f), f), f), f)
  }

  // One predicate per criterion, each true when its criterion is "all".

  predicate StatusOk(f: FilterOptions, u: User) { f.status == "all" || StatusName(u.status) == f.status }

  predicate VerifiedOk(f: FilterOptions, u: User)
  {
    f.verified == "all" || (if f.verified == "verified" then u.verified else !u.verified)
  }

  predicate GenderOk(f: FilterOptions, u: User) { f.gender == "all" || u.gender == f.gender }

  predicate AgeOk(f: FilterOptions, u: User) { f.ageMin <= u.age <= f.ageMax }

  predicate SearchOk(f: FilterOptions, u: User) { f.search == "" || SearchHit(u, Lower(f.search)) }

  /** The conjunction of every criterion, "all" and the empty search
      meaning no restriction: the reference definition of the view. */
  predicate Matches(f: FilterOptions, u: User)
  {
    StatusOk(f, u) && VerifiedOk(f, u) && GenderOk(f, u) && AgeOk(f, u) && SearchOk(f, u)
  }

  // Each step of the chain is a filter by its criterion predicate.

  lemma ByStatusIsFilter(s: seq<User>, f: FilterOptions)
    ensures ByStatus(s, f) == Filter((u: User) => StatusOk(f, u), s)
  {
    if f.status == "all" { FilterKeepsAll((u: User) => StatusOk(f, u), s); }
    else { FilterExt((u: User) => StatusName(u.status) == f.status, (u: User) => StatusOk(f, u), s); }
  }

  lemma ByVerifiedIsFilter(s: seq<User>, f: FilterOptions)
    ensures ByVerified(s, f) == Filter((u: User) => VerifiedOk(f, u), s)
  {
    if f.verified == "all" { FilterKeepsAll((u: User) => VerifiedOk(f, u), s); }
    else {
      FilterExt((u: User) => if f.verified == "verified" then u.verified else !u.verified,
                (u: User) => VerifiedOk(f, u), s);
    }
  }

  lemma ByGenderIsFilter(s: seq<User>, f: FilterOptions)
    ensures ByGender(s, f) == Filter((u: User) => GenderOk(f, u), s)
  {
    if f.gender == "all" { FilterKeepsAll((u: User) => GenderOk(f, u), s); }
    else { FilterExt((u: User) => u.gender == f.gender, (u: User) => GenderOk(f, u), s); }
  }

  lemma ByAgeIsFilter(s: seq<User>, f: FilterOptions)
    ensures ByAge(s, f) == Filter((u: User) => AgeOk(f, u), s)
  {
    FilterExt((u: User) => u.age >= f.ageMin && u.age <= f.ageMax, (u: User) => AgeOk(f, u), s);
  }

  lemma BySearchIsFilter(s: seq<User>, f: FilterOptions)
    ensures BySearch(s, f) == Filter((u: User) => SearchOk(f, u), s)
  {
    if f.search == "" { FilterKeepsAll((u: User) => SearchOk(f, u), s); }
    else { FilterExt((u: User) => SearchHit(u, Lower(f.search)), (u: User) => SearchOk(f, u), s); }
  }

  /** The chain of filters is one filter by the conjunction of the
      criteria: the view keeps exactly the matching users, in source order
      and with their multiplicity. */
  lemma FilterUsersIsOneFilter(users: seq<User>, f: FilterOptions)
    ensures FilterUsers(users, f) == Filter((u: User) => Matches(f, u), users)
  {
    var st := (u: User) => StatusOk(f, u);
    var c2 := (u: User) => StatusOk(f, u) && VerifiedOk(f, u);
    var c3 := (u: User) => StatusOk(f, u) && VerifiedOk(f, u) && GenderOk(f, u);
    var c4 := (u: User) => StatusOk(f, u) && VerifiedOk(f, u) && GenderOk(f, u) && AgeOk(f, u);
    var s1 := ByStatus(users, f);
    ByStatusIsFilter(users, f);
    var s2 := ByVerified(s1, f);
    ByVerifiedIsFilter(s1, f);
    FilterFilter(st, (u: User) => VerifiedOk(f, u), c2, users);
    assert s2 == Filter(c2, users);
    var s3 := ByGender(s2, f);
    ByGenderIsFilter(s2, f);
    FilterFilter(c2, (u: User) => GenderOk(f, u), c3, users);
    assert s3 == Filter(c3, users);
    var s4 := ByAge(s3, f);
    ByAgeIsFilter(s3, f);
    FilterFilter(c3, (u: User) => AgeOk(f, u), c4, users);
    assert s4 == Filter(c4, users);
    BySearchIsFilter(s4, f);
    FilterFilter(c4, (u: User) => SearchOk(f, u), (u: User) => Matches(f, u), users);
  }

  /** The view is an order-preserving subsequence of `users`, every user in
      it satisfies every active criterion, and every matching user is in
      it. */
  lemma FilterUsersSound(users: seq<User>, f: FilterOptions)
    ensures IsSubsequence(FilterUsers(users, f), users)
    ensures forall i :: 0 <= i < |FilterUsers(users, f)| ==> Matches(f, FilterUsers(users, f)[i])
    ensures forall i :: 0 <= i < |users| && Matches(f, users[i]) ==> users[i] in FilterUsers(users, f)
  {
    FilterUsersIsOneFilter(users, f);
    FilterIsSubsequence((u: User) => Matches(f, u), users);
  }

  /** With the default filters the view is exactly the users aged 18 to 80
      inclusive. */
  lemma DefaultView(users: seq<User>)
    ensures FilterUsers(users, DefaultFilters) == Filter((u: User) => 18 <= u.age <= 80, users)
  {
    FilterUsersIsOneFilter(users, DefaultFilters);
    FilterExt((u: User) => Matches(DefaultFilters, u), (u: User) => 18 <= u.age <= 80, users);
  }

  /** Every criterion at "all" and an empty search leave the list unchanged
      only when every age lies within the range: the age bounds are always
      applied. */
  lemma NoCriteriaView(users: seq<User>, f: FilterOptions)
    requires f.status == "all" && f.verified == "all" && f.gender == "all" && f.search == ""
    ensures (FilterUsers(users, f) == users) <==>
            (forall i :: 0 <= i < |users| ==> f.ageMin <= users[i].age <= f.ageMax)
  {
    FilterUsersIsOneFilter(users, f);
    if forall i :: 0 <= i < |users| ==> f.ageMin <= users[i].age <= f.ageMax {
      FilterKeepsAll((u: User) => Matches(f, u), users);
    } else {
      var i :| 0 <= i < |users| && !(f.ageMin <= users[i].age <= f.ageMax);
      FilterDropsOutOfRange(users, f, i);
    }
  }

  lemma {:induction false} FilterDropsOutOfRange(users: seq<User>, f: FilterOptions, i: int)
    requires 0 <= i < |users| && !Matches(f, users[i])
    ensures |Filter((u: User) => Matches(f, u), users)| < |users|
    decreases |users|
  {
    if i > 0 {
      FilterDropsOutOfRange(users[1..], f, i - 1);
    }
  }

  /** Search is case-insensitive: the query "JOHN" finds "Sarah Johnson". */
  lemma SearchIsCaseInsensitive(u: User)
    requires u.name == "Sarah Johnson"
    ensures SearchHit(u, Lower("JOHN")) && SearchHit(u, Lower("john"))
  {
    assert Lower("JOHN") == "john";
    assert Lower("john") == "john";
    assert Lower(u.name)[6..10] == "john";
    ContainsWitness(Lower(u.name), "john", 6);
  }

  /** The age range 25..30 over ages 22, 28, 31, 25 keeps the users aged 28
      and 25, in that order. */
  lemma AgeRangeScenario(a: User, b: User, c: User, d: User)
    requires a.age == 22 && b.age == 28 && c.age == 31 && d.age == 25
    ensures FilterUsers([a, b, c, d], DefaultFilters.(ageMin := 25, ageMax := 30)) == [b, d]
  {
    var f := DefaultFilters.(ageMin := 25, ageMax := 30);
    var s := [a, b, c, d];
    var q := (u: User) => f.ageMin <= u.age <= f.ageMax;
    AgeOnlyView(s, f);
    assert s[1..] == [b, c, d] && s[1..][1..] == [c, d] && s[1..][1..][1..] == [d];
    assert Filter(q, [d]) == [d];
    assert Filter(q, [c, d]) == [d];
    assert Filter(q, [b, c, d]) == [b, d];
  }

  /** With every other criterion off, the view is the users within the
      inclusive age range, in their order. */
  lemma AgeOnlyView(users: seq<User>, f: FilterOptions)
    requires f.status == "all" && f.verified == "all" && f.gender == "all" && f.search == ""
    ensures FilterUsers(users, f) == Filter((u: User) => f.ageMin <= u.age <= f.ageMax, users)
  {
    FilterUsersIsOneFilter(users, f);
    FilterExt((u: User) => Matches(f, u), (u: User) => f.ageMin <= u.age <= f.ageMax, users);
  }

  // ---------------------------------------------------------------------
  // Record rewrites behind the actions.

  /** `prev.map((u: User) => ids.includes(u.id) ? { ...u, status } : u)`. */
  function SetStatusOf(users: seq<User>, ids: seq<int>, status: UserStatus): (r: seq<User>)
    ensures |r| == |users|
    ensures forall i :: 0 <= i < |users| && users[i].id in ids ==> r[i] == users[i].(status := status)
    ensures forall i :: 0 <= i < |users| && users[i].id !in ids ==> r[i] == users[i]
  {
    MapWhere((u: User) => u.id in ids, (u: User) => u.(status := status), users)
  }

  /** `prev.map((u: User) => ids.includes(u.id) ? { ...u, verified: true } : u)`. */
  function SetVerifiedOf(users: seq<User>, ids: seq<int>): (r: seq<User>)
    ensures |r| == |users|
    ensures forall i :: 0 <= i < |users| && users[i].id in ids ==> r[i] == users[i].(verified := true)
    ensures forall i :: 0 <= i < |users| && users[i].id !in ids ==> r[i] == users[i]
  {
    MapWhere((u: User) => u.id in ids, (u: User) => u.(verified := true), users)
  }

  /** `prev.filter((u: User) => !ids.includes(u.id))`. */
  function RemoveUsers(users: seq<User>, ids: seq<int>): (r: seq<User>)
    ensures forall i :: 0 <= i < |r| ==> r[i] in users && r[i].id !in ids
    ensures forall i :: 0 <= i < |users| && users[i].id !in ids ==> users[i] in r
  {
    Filter((u: User) => u.id !in ids, users)
  }

  /** Deleting keeps the survivors in order and removes exactly as many
      records as carry a targeted id. */
  lemma RemoveUsersCount(users: seq<User>, ids: seq<int>)
    ensures IsSubsequence(RemoveUsers(users, ids), users)
    ensures |RemoveUsers(users, ids)| == |users| - |Filter((u: User) => u.id in ids, users)|
  {
    FilterIsSubsequence((u: User) => u.id !in ids, users);
    FilterPartition((u: User) => u.id in ids, (u: User) => u.id !in ids, users);
  }

  /** The bulk-action drop-down's values; any other string, the empty
      placeholder included, is `BulkOther`. */
  datatype BulkAction = BulkBan | BulkSuspend | BulkDelete | BulkVerify | BulkOther

  /** The `switch (bulkAction)` of the bulk handler: each recognised value
      selects its case, every other value none. */
  function ParseBulkAction(s: string): (a: BulkAction)
    ensures a == BulkBan <==> s == "ban"
    ensures a == BulkSuspend <==> s == "suspend"
    ensures a == BulkDelete <==> s == "delete"
    ensures a == BulkVerify <==> s == "verify"
  {
    match s
    case "ban" => BulkBan
    case "suspend" => BulkSuspend
    case "delete" => BulkDelete
    case "verify" => BulkVerify
    case _ => BulkOther
  }

  /** What a bulk action does to the account list. */
  function BulkUpdate(users: seq<User>, selected: seq<int>, action: BulkAction): (r: seq<User>)
    ensures action != BulkDelete ==>
              |r| == |users| &&
              forall i :: 0 <= i < |users| ==> r[i].id == users[i].id && (users[i].id !in selected ==> r[i] == users[i])
    ensures action == BulkBan ==>
              forall i :: 0 <= i < |users| && users[i].id in selected ==> r[i] == users[i].(status := Banned)
    ensures action == BulkSuspend ==>
              forall i :: 0 <= i < |users| && users[i].id in selected ==> r[i] == users[i].(status := Suspended)
    ensures action == BulkVerify ==>
              forall i :: 0 <= i < |users| && users[i].id in selected ==> r[i] == users[i].(verified := true)
    ensures action == BulkDelete ==>
              (forall i :: 0 <= i < |r| ==> r[i] in users && r[i].id !in selected) &&
              (forall i :: 0 <= i < |users| && users[i].id !in selected ==> users[i] in r)
    ensures action == BulkOther ==> r == users
  {
    match action
    case BulkBan => SetStatusOf(users, selected, Banned)
    case BulkSuspend => SetStatusOf(users, selected, Suspended)
    case BulkDelete => RemoveUsers(users, selected)
    case BulkVerify => SetVerifiedOf(users, selected)
    case BulkOther => users
  }

  /** Applying any bulk action twice is applying it once. */
  lemma BulkUpdateIdempotent(users: seq<User>, selected: seq<int>, action: BulkAction)
    ensures BulkUpdate(BulkUpdate(users, selected, action), selected, action) == BulkUpdate(users, selected, action)
  {
    match action
    case BulkDelete =>
      var p := (u: User) => u.id !in selected;
      FilterFilter(p, p, p, users);
    case BulkBan =>
      MapWhereIdempotent((u: User) => u.id in selected, (u: User) => u.(status := Banned), users);
    case BulkSuspend =>
      MapWhereIdempotent((u: User) => u.id in selected, (u: User) => u.(status := Suspended), users);
    case BulkVerify =>
      MapWhereIdempotent((u: User) => u.id in selected, (u: User) => u.(verified := true), users);
    case BulkOther =>
  }

  /** Deleting straight from the visible list, as the handler does, gives
      the same list as re-running the filter over the shrunken source. */
  lemma DeleteKeepsViewInSync(users: seq<User>, f: FilterOptions, selected: seq<int>)
    ensures RemoveUsers(FilterUsers(users, f), selected) == FilterUsers(RemoveUsers(users, selected), f)
  {
    FilterUsersIsOneFilter(users, f);
    FilterUsersIsOneFilter(RemoveUsers(users, selected), f);
    FilterCommute((u: User) => Matches(f, u), (u: User) => u.id !in selected, users);
  }

  /** The user a single action targets: looked up by id when a truthy id is
      given (0 counts as no id), otherwise the user whose modal is open. */
  function ResolveTarget(users: seq<User>, userId: Option<int>, selectedUser: Option<User>): (r: Option<User>)
    ensures userId.Some? && userId.value != 0 ==>
              (r.Some? <==> exists i :: 0 <= i < |users| && users[i].id == userId.value) &&
              (r.Some? ==> r.value in users && r.value.id == userId.value)
    ensures (userId.None? || userId.value == 0) ==> r == selectedUser
  {
    if userId.Some? && userId.value != 0 then Find((u: User) => u.id == userId.value, users) else selectedUser
  }

  /** What a single action does to the account list once its target is
      known. "reset" only sends an e-mail, which is not modelled. */
  function SingleUpdate(users: seq<User>, action: string, targetId: int): (r: seq<User>)
    ensures action == "ban" || action == "suspend" ==>
              |r| == |users| &&
              forall i :: 0 <= i < |users| ==>
                r[i] == if users[i].id == targetId
                        then users[i].(status := if action == "ban" then Banned else Suspended)
                        else users[i]
    ensures action == "delete" ==>
              (forall i :: 0 <= i < |r| ==> r[i] in users && r[i].id != targetId) &&
              (forall i :: 0 <= i < |users| && users[i].id != targetId ==> users[i] in r)
    ensures action !in ["ban", "suspend", "delete"] ==> r == users
  {
    match action
    case "ban" => SetStatusOf(users, [targetId], Banned)
    case "suspend" => SetStatusOf(users, [targetId], Suspended)
    case "delete" => RemoveUsers(users, [targetId])
    case _ => users
  }

  /** The action a row offers next to "reset": a suspended user can be
      banned, any other user suspended. */
  function RowAction(u: User): (r: string)
    ensures r == "ban" <==> u.status == Suspended
    ensures r == "suspend" <==> u.status != Suspended
  {
    if u.status == Suspended then "ban" else "suspend"
  }

  /** Taking the row's action escalates: a suspended user ends banned, any
      other user ends suspended, and the row then offers "ban". */
  lemma RowActionEscalates(users: seq<User>, i: int)
    requires 0 <= i < |users|
    ensures var v := SingleUpdate(users, RowAction(users[i]), users[i].id)[i];
            v.id == users[i].id &&
            (users[i].status == Suspended ==> v.status == Banned) &&
            (users[i].status != Suspended ==> v.status == Suspended && RowAction(v) == "ban")
  {
  }

  /** Badge colour classes for a status. */
  function StatusColor(s: UserStatus): (r: string)
    ensures |r| > 3 && r[..3] == "bg-"
  {
    match s
    case Active => "bg-green-100 text-green-800"
    case Inactive => "bg-yellow-100 text-yellow-800"
    case Suspended => "bg-orange-100 text-orange-800"
    case Banned => "bg-red-100 text-red-800"
  }

  /** Badge icon for a status. */
  function StatusIcon(s: UserStatus): (r: string)
    ensures |r| == 1
  {
    match s
    case Active => "\U{1F7E2}"
    case Inactive => "\U{1F7E1}"
    case Suspended => "\U{1F7E0}"
    case Banned => "\U{1F534}"
  }

  /** The colour and icon mappings tell the four statuses apart. */
  lemma StatusBadgesDistinct(a: UserStatus, b: UserStatus)
    ensures StatusColor(a) == StatusColor(b) <==> a == b
    ensures StatusIcon(a) == StatusIcon(b) <==> a == b
  {
    if a != b {
      assert StatusColor(a)[3] != StatusColor(b)[3];
      assert StatusIcon(a)[0] != StatusIcon(b)[0];
    }
  }

  /** The screen's state and its event handlers. Each handler is the
      synchronous state change it makes; `RecomputeView` is the effect that
      re-runs the filter after `users` or `filters` changed. */
  class UsersScreen {
    var users: seq<User>
    var filteredUsers: seq<User>
    var selectedUser: Option<User>
    var selectedAction: string
    var bulkAction: string
    var selectedUsers: seq<int>
    var filters: FilterOptions

    /** The visible list is what the filter effect computes. */
    ghost predicate ViewInSync()
      reads this
    {
      filteredUsers == FilterUsers(users, filters)
    }

    constructor ()
      ensures users == [] && filteredUsers == [] && selectedUser == None
      ensures selectedAction == "" && bulkAction == "" && selectedUsers == []
      ensures filters == DefaultFilters && ViewInSync()
    {
      users := [];
      filteredUsers := [];
      selectedUser := None;
      selectedAction := "";
      bulkAction := "";
      selectedUsers := [];
      filters := DefaultFilters;
    }

    /** The mount-time load: both lists become the loaded accounts. */
    method Load(loaded: seq<User>)
      modifies this
      ensures users == loaded && filteredUsers == loaded
      ensures selectedUser == old(selectedUser) && selectedAction == old(selectedAction)
      ensures bulkAction == old(bulkAction) && selectedUsers == old(selectedUsers) && filters == old(filters)
    {
      users := loaded;
      filteredUsers := loaded;
    }

    /** The filter effect. */
    method RecomputeView()
      modifies this
      ensures ViewInSync()
      ensures users == old(users) && selectedUser == old(selectedUser) && selectedAction == old(selectedAction)
      ensures bulkAction == old(bulkAction) && selectedUsers == old(selectedUsers) && filters == old(filters)
    {
      filteredUsers := FilterUsers(users, filters);
    }

    /** A change in the filter bar, followed by the effect. */
    method SetFilters(f: FilterOptions)
      modifies this
      ensures filters == f && ViewInSync()
      ensures users == old(users) && selectedUser == old(selectedUser) && selectedAction == old(selectedAction)
      ensures bulkAction == old(bulkAction) && selectedUsers == old(selectedUsers)
    {
      filters := f;
      filteredUsers := FilterUsers(users, filters);
    }

    /** The row's second button: open the action modal for `u` with the
      row's escalation chosen ("ban" for a suspended user, else "suspend"),
      or, for the first button, with "reset" chosen. */
    method ChooseFromRow(u: User, reset: bool)
      modifies this
      ensures selectedUser == Some(u)
      ensures selectedAction == if reset then "reset" else RowAction(u)
      ensures users == old(users) && filteredUsers == old(filteredUsers) && filters == old(filters)
      ensures bulkAction == old(bulkAction) && selectedUsers == old(selectedUsers)
    {
      selectedUser := Some(u);
      selectedAction := if reset then "reset" else RowAction(u);
    }

    /** The row's "View" button: select `u` for the profile modal; the
      chosen action is left as it was. */
    method ViewUser(u: User)
      modifies this
      ensures selectedUser == Some(u) && selectedAction == old(selectedAction)
      ensures users == old(users) && filteredUsers == old(filteredUsers) && filters == old(filters)
      ensures bulkAction == old(bulkAction) && selectedUsers == old(selectedUsers)
    {
      selectedUser := Some(u);
    }

    /** A button inside the modal: choose one of its three actions for the
      user already selected. */
    method ChooseFromModal(action: string)
      requires action in {"reset", "suspend", "ban"}
      modifies this
      ensures selectedAction == action && selectedUser == old(selectedUser)
      ensures users == old(users) && filteredUsers == old(filteredUsers) && filters == old(filters)
      ensures bulkAction == old(bulkAction) && selectedUsers == old(selectedUsers)
    {
      selectedAction := action;
    }

    /** `handleUserAction`: a missing target changes nothing; otherwise the
      action is applied to the target's id and the chosen action is
      cleared. */
    method HandleUserAction(action: string, userId: Option<int>)
      modifies this
      ensures ResolveTarget(old(users), userId, old(selectedUser)).None? ==>
                users == old(users) && filteredUsers == old(filteredUsers) && selectedAction == old(selectedAction)
      ensures ResolveTarget(old(users), userId, old(selectedUser)).Some? ==>
                var target := ResolveTarget(old(users), userId, old(selectedUser)).value.id;
                && users == SingleUpdate(old(users), action, target)
                && filteredUsers == (if action == "delete" then RemoveUsers(old(filteredUsers), [target])
                                     else old(filteredUsers))
                && selectedAction == ""
      ensures selectedUser == old(selectedUser) && filters == old(filters)
      ensures bulkAction == old(bulkAction) && selectedUsers == old(selectedUsers)
    {
      var user := ResolveTarget(users, userId, selectedUser);
      if user.None? {
        return;
      }
      var target := user.value.id;
      users := SingleUpdate(users, action, target);
      if action == "delete" {
        filteredUsers := RemoveUsers(filteredUsers, [target]);
      }
      selectedAction := "";
    }

    /** `handleBulkAction`: nothing at all happens without an action or a
      selection; otherwise the action is applied to the selected ids and
      both the selection and the chosen action are reset, even when the
      action was not recognised. A delete removes the selected ids from the
      visible list too, which `DeleteKeepsViewInSync` shows to agree with
      re-running the filter. */
    method HandleBulkAction()
      modifies this
      ensures old(bulkAction) == "" || old(selectedUsers) == [] ==>
                users == old(users) && filteredUsers == old(filteredUsers) &&
                selectedUsers == old(selectedUsers) && bulkAction == old(bulkAction)
      ensures old(bulkAction) != "" && old(selectedUsers) != [] ==>
                && users == BulkUpdate(old(users), old(selectedUsers), ParseBulkAction(old(bulkAction)))
                && filteredUsers == (if ParseBulkAction(old(bulkAction)) == BulkDelete
                                     then RemoveUsers(old(filteredUsers), old(selectedUsers))
                                     else old(filteredUsers))
                && selectedUsers == [] && bulkAction == ""
      ensures selectedUser == old(selectedUser) && selectedAction == old(selectedAction) && filters == old(filters)
    {
      if bulkAction == "" || selectedUsers == [] {
        return;
      }
      var action := ParseBulkAction(bulkAction);
      if action == BulkDelete {
        filteredUsers := RemoveUsers(filteredUsers, selectedUsers);
      }
      users := BulkUpdate(users, selectedUsers, action);
      selectedUsers := [];
      bulkAction := "";
    }

    /** The bulk-action drop-down. */
    method SetBulkAction(a: string)
      modifies this
      ensures bulkAction == a
      ensures users == old(users) && filteredUsers == old(filteredUsers) && selectedUser == old(selectedUser)
      ensures selectedAction == old(selectedAction) && selectedUsers == old(selectedUsers) && filters == old(filters)
    {
      bulkAction := a;
    }

    /** `toggleUserSelection`. */
    method ToggleUserSelection(id: int)
      modifies this
      ensures selectedUsers == Selection.Toggle(old(selectedUsers), id)
      ensures users == old(users) && filteredUsers == old(filteredUsers) && selectedUser == old(selectedUser)
      ensures selectedAction == old(selectedAction) && bulkAction == old(bulkAction) && filters == old(filters)
    {
      selectedUsers := Selection.Toggle(selectedUsers, id);
    }

    /** `selectAllUsers`: compares the lengths of the selection and of the
      visible list. */
    method SelectAllUsers()
      modifies this
      ensures selectedUsers == Selection.SelectAll(old(selectedUsers), Map((u: User) => u.id, old(filteredUsers)))
      ensures users == old(users) && filteredUsers == old(filteredUsers) && selectedUser == old(selectedUser)
      ensures selectedAction == old(selectedAction) && bulkAction == old(bulkAction) && filters == old(filters)
    {
      selectedUsers := Selection.SelectAll(selectedUsers, Map((u: User) => u.id, filteredUsers));
    }
  }
}
