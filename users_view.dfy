/** The user list: one page of users at a time, with a search term, a role
    filter, previous/next buttons and a details modal from which an account
    is suspended or reactivated. */
module UsersView {
  import opened Common

  /** Users per page. */
  const Limit := 20

  /** A user as the list shows it. A missing first name or photo URL is
      `""`, which is what the view's truthiness tests see. */
  datatype User = User(
    id: int,
    email: string,
    firstName: string,
    isVerified: bool,
    isSuspended: bool,
    profileImageUrl: string)

  /** What `getUsers` can resolve to: the legacy bare array, the paginated
      object (whose `pages` and `total` may be missing), or anything else. */
  datatype UsersResponse =
    | PlainArray(list: seq<User>)
    | Paginated(users: seq<User>, pages: Option<int>, total: Option<int>)
    | OtherShape

  /** The three state variables a response sets. */
  datatype Listing = Listing(users: seq<User>, totalPages: int, totalUsers: int)

  /** `n || d` for an optional number: a missing value or `0` falls back. */
  function OrNumber(n: Option<int>, d: int): (r: int)
    ensures n.Some? && n.value != 0 ==> r == n.value
    ensures n.None? || n.value == 0 ==> r == d
  {
    if n.Some? && n.value != 0 then n.value else d
  }

  /** The normalisation in `fetchUsers`. */
  function Normalize(data: UsersResponse): (r: Listing)
    ensures data.PlainArray? ==> r == Listing(data.list, 1, |data.list|)
    ensures data.Paginated? ==>
      r == Listing(data.users, OrNumber(data.pages, 1), OrNumber(data.total, 0))
    ensures data.OtherShape? ==> r == Listing([], 1, 0)
  {
    match data
    case PlainArray(list) => Listing(list, 1, |list|)
    case Paginated(users, pages, total) => Listing(users, OrNumber(pages, 1), OrNumber(total, 0))
    case OtherShape => Listing([], 1, 0)
  }

  /** Whatever the shape, the page count is never zero and the total is
      never below the legacy array's length; with non-negative counts from
      the server the page count is at least one. */
  lemma NormalizeBounds(data: UsersResponse)
    requires data.Paginated? ==>
      (data.pages.Some? ==> data.pages.value >= 0) && (data.total.Some? ==> data.total.value >= 0)
    ensures Normalize(data).totalPages >= 1 && Normalize(data).totalUsers >= 0
    ensures data.PlainArray? ==> Normalize(data).totalUsers == |Normalize(data).users|
  {
  }

  /** The previous-page setter `p => Math.max(1, p - 1)`. */
  function PrevPage(p: int): (r: int)
    ensures r >= 1
    ensures p > 1 ==> r == p - 1
    ensures p <= 1 ==> r == 1
  {
    if p - 1 > 1 then p - 1 else 1
  }

  /** The next-page setter `p => Math.min(totalPages, p + 1)`. */
  function NextPage(p: int, totalPages: int): (r: int)
    ensures r <= totalPages
    ensures p < totalPages ==> r == p + 1
    ensures p >= totalPages ==> r == totalPages
  {
    if p + 1 < totalPages then p + 1 else totalPages
  }

  /** Inside the valid range the two buttons undo each other. */
  lemma PrevNextRoundTrip(p: int, totalPages: int)
    ensures 1 < p <= totalPages ==> NextPage(PrevPage(p), totalPages) == p
    ensures 1 <= p < totalPages ==> PrevPage(NextPage(p, totalPages)) == p
  {
  }

  /** The next-page setter clamps rather than steps: on a page past the
      last one (the count shrank since the page was chosen) the Next button
      stays enabled and moves back to the last page. */
  lemma NextFromBeyondGoesBack(p: int, totalPages: int)
    requires p > totalPages
    ensures p != totalPages && NextPage(p, totalPages) < p
  {
  }

  /** The first index shown, counting from 1; 0 for an empty page. */
  function RangeStart(count: nat, page: int): (r: int)
    ensures count == 0 ==> r == 0
    ensures count > 0 ==> r == (page - 1) * Limit + 1
  {
    if count > 0 then (page - 1) * Limit + 1 else 0
  }

  /** The last index shown: `Math.min(page * limit, totalUsers)`. */
  function RangeEnd(page: int, totalUsers: int): (r: int)
    ensures r <= page * Limit && r <= totalUsers
    ensures r == page * Limit || r == totalUsers
  {
    if page * Limit < totalUsers then page * Limit else totalUsers
  }

  /** When the server's page is consistent with its total (a full page
      unless it is the last one), the displayed range counts exactly the
      users on the page. */
  lemma RangeCountsPage(count: nat, page: int, totalUsers: int)
    requires page >= 1 && 0 < count <= Limit
    requires totalUsers >= (page - 1) * Limit + count
    requires count < Limit ==> totalUsers == (page - 1) * Limit + count
    ensures 1 <= RangeStart(count, page) <= RangeEnd(page, totalUsers)
    ensures RangeEnd(page, totalUsers) - RangeStart(count, page) + 1 == count
  {
  }

  /** The status column. */
  datatype Status = Suspended | Verified | Unverified

  /** Suspension takes precedence over verification. */
  function StatusOf(u: User): (s: Status)
    ensures s == Suspended <==> u.isSuspended
    ensures s == Verified <==> !u.isSuspended && u.isVerified
    ensures s == Unverified <==> !u.isSuspended && !u.isVerified
  {
    if u.isSuspended then Suspended else if u.isVerified then Verified else Unverified
  }

  /** The avatar cell: the photo, else an upper-cased initial. With no
      photo, no first name and an empty email the expression
      `(first_name?.[0] || email[0]).toUpperCase()` throws while rendering. */
  datatype Avatar = Photo(url: string) | Initial(letter: char) | RenderError

  function AvatarOf(u: User): (a: Avatar)
    ensures a.Photo? <==> u.profileImageUrl != ""
    ensures a.Photo? ==> a.url == u.profileImageUrl
    ensures a.Initial? ==> !IsAsciiLower(a.letter)
    ensures u.profileImageUrl == "" && u.firstName != "" ==> a == Initial(UpperChar(u.firstName[0]))
    ensures u.profileImageUrl == "" && u.firstName == "" && u.email != "" ==>
      a == Initial(UpperChar(u.email[0]))
    ensures a.RenderError? <==> u.profileImageUrl == "" && u.firstName == "" && u.email == ""
  {
    if u.profileImageUrl != "" then Photo(u.profileImageUrl)
    else if u.firstName != "" then Initial(UpperChar(u.firstName[0]))
    else if u.email != "" then Initial(UpperChar(u.email[0]))
    else RenderError
  }

  /** The role filter of the list. */
  datatype RoleFilter = AllRoles | Customers | Owners | Agents

  /** The parameters `getUsers` is called with. */
  datatype UsersQuery = UsersQuery(page: int, limit: int, search: string, role: RoleFilter)

  /** `suspendUser(id, reason)`. */
  datatype SuspendRequest = SuspendRequest(userId: int, reason: string)

  /** The suspend handler's guard: the prompt's answer, `None` when it was
      dismissed. An empty or dismissed answer sends nothing. */
  function SuspendCall(u: User, answer: Option<string>): (r: Option<SuspendRequest>)
    ensures r.Some? <==> answer.Some? && answer.value != ""
    ensures r.Some? ==> r.value.userId == u.id && r.value.reason == answer.value && r.value.reason != ""
  {
    if answer.Some? && answer.value != "" then Some(SuspendRequest(u.id, answer.value)) else None
  }

  /** The list's state. `search` is the debounced term the query uses. */
  class UserList {
    var users: seq<User>
    var loading: bool
    var page: int
    var totalPages: int
    var totalUsers: int
    var search: string
    var role: RoleFilter
    var selected: Option<User>
    var showModal: bool

    constructor ()
      ensures users == [] && loading && page == 1 && totalPages == 1 && totalUsers == 0
      ensures search == "" && role == AllRoles && selected == None && !showModal
    {
      users, loading, page, totalPages, totalUsers := [], true, 1, 1, 0;
      search, role, selected, showModal := "", AllRoles, None, false;
    }

    predicate PrevDisabled()
      reads this
    {
      page == 1 || loading
    }

    predicate NextDisabled()
      reads this
    {
      page == totalPages || loading
    }

    /** The start of `fetchUsers`: the query for the current state. */
    method StartFetch() returns (query: UsersQuery)
      modifies this`loading
      ensures loading
      ensures query == UsersQuery(page, Limit, search, role)
    {
      loading := true;
      query := UsersQuery(page, Limit, search, role);
    }

    /** The end of `fetchUsers`: a response replaces the three list variables
        with its normal form; a failed call keeps them. The page is left as
        it was in both cases. */
    method Receive(response: Option<UsersResponse>)
      modifies this`users, this`totalPages, this`totalUsers, this`loading
      ensures !loading
      ensures response.Some? ==>
        Listing(users, totalPages, totalUsers) == Normalize(response.value)
      ensures response.None? ==>
        users == old(users) && totalPages == old(totalPages) && totalUsers == old(totalUsers)
    {
      if response.Some? {
        var l := Normalize(response.value);
        users, totalPages, totalUsers := l.users, l.totalPages, l.totalUsers;
      }
      loading := false;
    }

    /** The previous-page button; a disabled button does nothing. */
    method ClickPrevious()
      modifies this`page
      ensures page == if old(PrevDisabled()) then old(page) else PrevPage(old(page))
      ensures old(page) >= 1 ==> page >= 1
    {
      if !PrevDisabled() {
        page := PrevPage(page);
      }
    }

    /** The next-page button; a disabled button does nothing. */
    method ClickNext()
      modifies this`page
      ensures page == if old(NextDisabled()) then old(page) else NextPage(old(page), totalPages)
      ensures old(page) <= totalPages ==> page <= totalPages
    {
      if !NextDisabled() {
        page := NextPage(page, totalPages);
      }
    }

    /** The debounce timer firing: the settled term becomes the query's and
        the page goes back to 1. */
    method SearchSettled(term: string)
      modifies this`search, this`page
      ensures search == term && page == 1
    {
      search, page := term, 1;
    }

    /** Choosing a role: a different role resets the page to 1; choosing the
        current role again changes nothing. */
    method SetRole(r: RoleFilter)
      modifies this`role, this`page
      ensures role == r
      ensures page == if r != old(role) then 1 else old(page)
    {
      if r != role {
        role, page := r, 1;
      }
    }

    /** Clicking a row opens its details. */
    method OpenDetails(u: User)
      modifies this`selected, this`showModal
      ensures selected == Some(u) && showModal
    {
      selected, showModal := Some(u), true;
    }

    /** `handleSuspend`. Nothing is sent unless the prompt returned a
        non-empty reason; a successful call asks for a refetch and closes the
        modal, a failed one leaves it open. */
    method Suspend(u: User, answer: Option<string>, outcome: Outcome)
      returns (request: Option<SuspendRequest>, refetch: bool)
      modifies this`showModal
      ensures request == SuspendCall(u, answer)
      ensures refetch <==> request.Some? && outcome.Succeeded?
      ensures showModal == if refetch then false else old(showModal)
    {
      request := SuspendCall(u, answer);
      refetch := request.Some? && outcome.Succeeded?;
      if refetch {
        showModal := false;
      }
    }

    /** `handleUnsuspend`: nothing without confirmation; otherwise as for
        suspension. */
    method Unsuspend(u: User, confirmed: bool, outcome: Outcome)
      returns (request: Option<int>, refetch: bool)
      modifies this`showModal
      ensures request == if confirmed then Some(u.id) else None
      ensures refetch <==> confirmed && outcome.Succeeded?
      ensures showModal == if refetch then false else old(showModal)
    {
      request := if confirmed then Some(u.id) else None;
      refetch := confirmed && outcome.Succeeded?;
      if refetch {
        showModal := false;
      }
    }

    method CloseDetails()
      modifies this`showModal
      ensures !showModal
    {
      showModal := false;
    }
  }
}
