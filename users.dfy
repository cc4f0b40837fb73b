/** The user administration page: a searchable, role-filterable list of
    users and a dialog that adds a new user at the top of the list. */
module Users {
  import opened Common
  import opened Text

  datatype Role = Pm | Creator | Client

  /** The role as stored on a user record. */
  function RoleName(r: Role): string
  {
    match r
    case Pm => "pm"
    case Creator => "creator"
    case Client => "client"
  }

  datatype User = User(id: string, name: string, email: string, role: Role,
                       avatar: Option<string>, company: string)

  /** The create-user dialog's form. */
  datatype UserForm = UserForm(name: string, email: string, role: Role, company: string)

  const EMPTY_FORM: UserForm := UserForm("", "", Client, "")

  const MOCK_USERS: seq<User> := [
    User("1", "田中 太郎", "tanaka@sozo-anime.com", Pm, Some("/avatars/01.png"), "SOZO Anime"),
    User("2", "山田 花子", "yamada@client-a.com", Client, Some("/avatars/02.png"), "株式会社クライアントA"),
    User("3", "佐藤 次郎", "sato@sozo-anime.com", Creator, None, "SOZO Anime"),
    User("4", "鈴木 一郎", "suzuki@client-b.com", Client, None, "株式会社クライアントB"),
    User("5", "高橋 美咲", "takahashi@sozo-anime.com", Pm, Some("/avatars/03.png"), "SOZO Anime"),
    User("6", "カルボネロ ニキ", "carbonero.niki@example.com", Client, None, "Global Tech Industries")
  ]

  // ------------------------------------------------------------- filter

  /** The search box matches name, email or company, ignoring case. */
  predicate MatchesSearch(u: User, query: string)
  {
    ContainsIgnoringCase(u.name, query) || ContainsIgnoringCase(u.email, query)
    || ContainsIgnoringCase(u.company, query)
  }

  /** No role filter admits everyone; a role filter admits that role only. */
  predicate MatchesRole(u: User, roleFilter: Option<Role>)
  {
    roleFilter.None? || u.role == roleFilter.value
  }

  /** `filteredUsers`: the users passing both tests, in list order. */
  function FilterUsers(users: seq<User>, query: string, roleFilter: Option<Role>): (r: seq<User>)
    ensures IsSubsequence(r, users)
    ensures forall u :: u in r <==> u in users && MatchesSearch(u, query) && MatchesRole(u, roleFilter)
    ensures forall u :: multiset(r)[u] ==
                        (if MatchesSearch(u, query) && MatchesRole(u, roleFilter) then multiset(users)[u] else 0)
  {
    var keep := (u: User) => MatchesSearch(u, query) && MatchesRole(u, roleFilter);
    FilterIsSubsequence(users, keep);
    Filter(users, keep)
  }

  /** With an empty search box and no role filter every user is listed. */
  lemma EmptySearchListsAll(users: seq<User>)
    ensures FilterUsers(users, "", None) == users
  {
    forall i | 0 <= i < |users| ensures MatchesSearch(users[i], "") {
      IncludesEmpty(Lower(users[i].name));
    }
    FilterKeepsAll(users, (u: User) => MatchesSearch(u, "") && MatchesRole(u, None));
  }

  /** The search ignores the case of the query. */
  lemma SearchIgnoresQueryCase(users: seq<User>, query: string, roleFilter: Option<Role>)
    ensures FilterUsers(users, query, roleFilter) == FilterUsers(users, Lower(query), roleFilter)
  {
    forall i | 0 <= i < |users|
      ensures MatchesSearch(users[i], query) == MatchesSearch(users[i], Lower(query))
    {
      ContainsIgnoresQueryCase(users[i].name, query);
      ContainsIgnoresQueryCase(users[i].email, query);
      ContainsIgnoresQueryCase(users[i].company, query);
    }
    FilterSameTest(users,
      (u: User) => MatchesSearch(u, query) && MatchesRole(u, roleFilter),
      (u: User) => MatchesSearch(u, Lower(query)) && MatchesRole(u, roleFilter));
  }

  /** A user added at the top of the list is listed first exactly when it
      passes the current search and filter; the rest of the listing is the
      previous one. */
  lemma NewUserListedFirst(u: User, users: seq<User>, query: string, roleFilter: Option<Role>)
    ensures FilterUsers([u] + users, query, roleFilter) ==
      if MatchesSearch(u, query) && MatchesRole(u, roleFilter)
      then [u] + FilterUsers(users, query, roleFilter)
      else FilterUsers(users, query, roleFilter)
  {
    FilterCons(u, users, (v: User) => MatchesSearch(v, query) && MatchesRole(v, roleFilter));
  }

  // -------------------------------------------------------------- badge

  /** `getRoleBadge`: the label shown for a stored role string. */
  function RoleBadge(role: string): (badge: string)
    ensures badge == "制作PM" <==> role == "pm"
    ensures badge == "制作メンバー" <==> role == "creator"
    ensures badge == "クライアント" <==> role == "client"
    ensures badge == "その他" <==> role !in {"pm", "creator", "client"}
  {
    if role == "pm" then "制作PM"
    else if role == "creator" then "制作メンバー"
    else if role == "client" then "クライアント"
    else "その他"
  }

  /** Every role a user can hold gets its own label, never the fallback. */
  lemma RoleBadgeOfRole(r: Role, r': Role)
    ensures RoleBadge(RoleName(r)) != "その他"
    ensures RoleBadge(RoleName(r)) == RoleBadge(RoleName(r')) ==> r == r'
  {
  }

  // --------------------------------------------------------------- page

  /** The record `handleCreateUser` builds from the form and a fresh id. */
  function NewUser(id: string, form: UserForm): User
  {
    User(id, form.name, form.email, form.role, None, form.company)
  }

  /** The page's state: the user list, the search and filter controls and
      the create dialog. */
  class UsersPage {
    var users: seq<User>
    var searchQuery: string
    var roleFilter: Option<Role>
    var isDialogOpen: bool
    var newUser: UserForm

    constructor ()
      ensures users == MOCK_USERS && searchQuery == "" && roleFilter == None
      ensures !isDialogOpen && newUser == EMPTY_FORM
    {
      users := MOCK_USERS;
      searchQuery := "";
      roleFilter := None;
      isDialogOpen := false;
      newUser := EMPTY_FORM;
    }

    /** The rows the table shows. */
    function FilteredUsers(): seq<User>
      reads this
    {
      FilterUsers(users, searchQuery, roleFilter)
    }

    /** `handleCreateUser`, with the random id passed in. Without a name or
        an email nothing happens; otherwise the new user goes first, the
        dialog closes and the form is reset. */
    method CreateUser(freshId: string)
      modifies this
      ensures old(newUser).name == "" || old(newUser).email == "" ==> unchanged(this)
      ensures old(newUser).name != "" && old(newUser).email != "" ==>
        && users == [NewUser(freshId, old(newUser))] + old(users)
        && !isDialogOpen
        && newUser == EMPTY_FORM
        && searchQuery == old(searchQuery)
        && roleFilter == old(roleFilter)
    {
      if newUser.name == "" || newUser.email == "" {
        return;
      }
      var user := NewUser(freshId, newUser);
      users := [user] + users;
      isDialogOpen := false;
      newUser := EMPTY_FORM;
    }
  }
}
