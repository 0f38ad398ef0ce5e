/**
 * `TxUserListViewModel`: the paged user list. Each load is two steps: the call itself (the
 * guard, `isLoading = true`, and scheduling the task) and, later, the completion of the
 * scheduled task with the fetch's outcome. Between the two, the view observes the loading
 * state.
 *
 * The transitions are defined on `Snapshot`, a value holding every field; the class's
 * methods update the fields step by step and are proved to agree with them.
 */
module UserListViewModel {
  import opened Wrappers
  import opened GithubModels
  import opened GithubConstants
  import opened UserUIMapper
  import opened Navigation

  /** `UserListState`; an error is represented by its description. */
  datatype UserListState = Loading | Error(description: string) | Data(items: seq<UserItemUI<string>>)

  /** `UserListState.==`: any two errors are equal, whatever they hold. */
  function StateEquals(a: UserListState, b: UserListState): bool {
    match (a, b)
    case (Loading, Loading) => true
    case (Error(_), Error(_)) => true
    case (Data(x), Data(y)) => x == y
    case _ => false
  }

  /** The load a scheduled task belongs to. */
  datatype Fetch = InitialFetch | MoreFetch

  /** The arguments of the `getUsers(page:pageSize:)` call. */
  datatype PageRequest = PageRequest(page: int, pageSize: int)

  /** The model's fields; `pending` is the scheduled task that has not completed yet. */
  datatype Snapshot = Snapshot(
    userListState: UserListState,
    users: seq<UserItemUI<string>>,
    errorMessage: Option<string>,
    currentPage: int,
    isLoading: bool,
    hasMoreData: bool,
    pending: Option<Fetch>)

  /** The state after `init()`. */
  const Initial: Snapshot := Snapshot(Loading, [], None, 1, false, false, None)

  /** The state a view model is always in between steps. */
  predicate Valid(s: Snapshot) {
    && s.currentPage >= 1
    && (s.isLoading <==> s.pending.Some?)
    && (s.userListState.Data? ==> s.userListState.items == s.users)
    && (s.userListState.Loading? ==> s.users == [])
    && !s.userListState.Error?
  }

  /** `loadInitialUsers()` up to the scheduled task. */
  function BeginInitial(s: Snapshot): Snapshot {
    if s.isLoading then s
    else s.(isLoading := true, currentPage := 1, pending := Some(InitialFetch))
  }

  /** `loadMoreData()` up to the scheduled task. */
  function BeginMore(s: Snapshot): Snapshot {
    if s.isLoading || !s.hasMoreData then s
    else s.(isLoading := true, pending := Some(MoreFetch))
  }

  /** The scheduled task, given the fetch's outcome: the users or the error's description. */
  function Complete(s: Snapshot, outcome: Result<seq<GithubUser<string>>, string>): Snapshot
    requires s.pending.Some?
  {
    match outcome
    case Success(newUsers) =>
      var users := if s.pending.value == InitialFetch then MapListUI(newUsers) else s.users + MapListUI(newUsers);
      s.(users := users, userListState := Data(users), isLoading := false,
         currentPage := s.currentPage + 1, hasMoreData := |newUsers| == PageSize, pending := None)
    case Failure(description) =>
      s.(errorMessage := Some(description), isLoading := false, hasMoreData := false, pending := None)
  }

  class TxUserListViewModel {
    var userListState: UserListState
    var users: seq<UserItemUI<string>>
    var errorMessage: Option<string>
    var currentPage: int
    var isLoading: bool
    var hasMoreData: bool
    var pending: Option<Fetch>

    function State(): Snapshot
      reads this
    {
      Snapshot(userListState, users, errorMessage, currentPage, isLoading, hasMoreData, pending)
    }

    constructor ()
      ensures State() == Initial
    {
      userListState := Loading;
      users := [];
      errorMessage := None;
      currentPage := 1;
      isLoading := false;
      hasMoreData := false;
      pending := None;
    }

    /** `hasData`. */
    function HasData(): (r: bool)
      reads this
      ensures r <==> |users| > 0
    {
      users != []
    }

    /** `loadInitialUsers()`: returns the request the scheduled task sends, if one was scheduled. */
    method LoadInitialUsers() returns (request: Option<PageRequest>)
      modifies this
      ensures State() == BeginInitial(old(State()))
      ensures request == if old(isLoading) then None else Some(PageRequest(1, PageSize))
    {
      if isLoading {
        return None;
      }
      isLoading := true;
      currentPage := 1;
      pending := Some(InitialFetch);
      request := Some(PageRequest(currentPage, PageSize));
    }

    /** `loadMoreData()`: the request asks for the current page. */
    method LoadMoreData() returns (request: Option<PageRequest>)
      modifies this
      ensures State() == BeginMore(old(State()))
      ensures request == if old(isLoading) || !old(hasMoreData) then None else Some(PageRequest(old(currentPage), PageSize))
    {
      if isLoading || !hasMoreData {
        return None;
      }
      isLoading := true;
      pending := Some(MoreFetch);
      request := Some(PageRequest(currentPage, PageSize));
    }

    /** The scheduled task of either load runs to its end. */
    method CompleteFetch(outcome: Result<seq<GithubUser<string>>, string>)
      requires pending.Some?
      modifies this
      ensures State() == Complete(old(State()), outcome)
    {
      match outcome {
        case Success(newUsers) =>
          if pending.value == InitialFetch {
            users := MapListUI(newUsers);
          } else {
            users := users + MapListUI(newUsers);
          }
          userListState := Data(users);
          isLoading := false;
          currentPage := currentPage + 1;
          hasMoreData := |newUsers| == PageSize;
        case Failure(description) =>
          errorMessage := Some(description);
          isLoading := false;
          hasMoreData := false;
      }
      pending := None;
    }

    /** `gotoDetail(userId:)`: asks the navigation for the user's detail screen. */
    method GotoDetail(navigation: NavigationRecorder, userId: string)
      modifies navigation
      ensures navigation.calls == old(navigation.calls) + [ToUserDetail(userId)]
    {
      navigation.RouteToUserDetail(userId);
    }
  }

  /** The view model starts valid, and each step keeps it valid. */
  lemma StepsPreserveValid(s: Snapshot, outcome: Result<seq<GithubUser<string>>, string>)
    ensures Valid(Initial)
    ensures Valid(s) ==> Valid(BeginInitial(s)) && Valid(BeginMore(s))
    ensures Valid(s) && s.pending.Some? ==> Valid(Complete(s, outcome))
  {
  }

  /** While a load is in flight, neither load does anything. */
  lemma LoadingGuards(s: Snapshot)
    requires s.isLoading
    ensures BeginInitial(s) == s && BeginMore(s) == s
  {
  }

  /** `loadMoreData` only starts when no load is in flight and more data is expected. */
  lemma LoadMoreGuard(s: Snapshot)
    ensures BeginMore(s) != s <==> !s.isLoading && s.hasMoreData
    ensures BeginMore(s) != s ==> BeginMore(s).pending == Some(MoreFetch) && BeginMore(s).currentPage == s.currentPage
  {
  }

  /**
   * After any success no load is in flight, the page has advanced by one and more data is
   * expected exactly when a full page came back. An initial load replaces the list and a
   * further load appends to it, in fetch order.
   */
  lemma SuccessEffect(s: Snapshot, newUsers: seq<GithubUser<string>>)
    requires s.pending.Some?
    ensures var t := Complete(s, Success(newUsers));
            !t.isLoading && t.pending.None? && t.currentPage == s.currentPage + 1
            && (t.hasMoreData <==> |newUsers| == PageSize)
            && t.userListState == Data(t.users)
            && (s.pending == Some(InitialFetch) ==> t.users == MapListUI(newUsers))
            && (s.pending == Some(MoreFetch) ==>
                  t.users[..|s.users|] == s.users && t.users[|s.users|..] == MapListUI(newUsers))
  {
  }

  /** A failure keeps the list, its state and the page, and stops further loads of more data. */
  lemma FailureEffect(s: Snapshot, description: string)
    requires s.pending.Some?
    ensures var t := Complete(s, Failure(description));
            !t.isLoading && !t.hasMoreData && t.errorMessage == Some(description)
            && t.users == s.users && t.userListState == s.userListState && t.currentPage == s.currentPage
            && BeginMore(t) == t
  {
  }

  /** The initial load always starts from page 1, whatever page had been reached. */
  lemma InitialLoadResets(s: Snapshot, newUsers: seq<GithubUser<string>>)
    requires !s.isLoading
    ensures Complete(BeginInitial(s), Success(newUsers)).currentPage == 2
    ensures Complete(BeginInitial(s), Success(newUsers)).users == MapListUI(newUsers)
  {
  }

  /** The steps a view model goes through. */
  datatype Step =
    | LoadInitial
    | LoadMore
    | Finish(outcome: Result<seq<GithubUser<string>>, string>)

  /** The state after a step; a completion without a scheduled task does not occur. */
  function Apply(s: Snapshot, step: Step): Snapshot {
    match step
    case LoadInitial => BeginInitial(s)
    case LoadMore => BeginMore(s)
    case Finish(outcome) => if s.pending.Some? then Complete(s, outcome) else s
  }

  function Run(s: Snapshot, steps: seq<Step>): Snapshot
    decreases |steps|
  {
    if |steps| == 0 then s else Run(Apply(s, steps[0]), steps[1..])
  }

  /** Every reachable state is valid: in particular the state never becomes `.error`. */
  lemma {:induction false} RunPreservesValid(s: Snapshot, steps: seq<Step>)
    requires Valid(s)
    ensures Valid(Run(s, steps))
    decreases |steps|
  {
    if |steps| > 0 {
      match steps[0] {
        case Finish(outcome) =>
          if s.pending.Some? {
            StepsPreserveValid(s, outcome);
          }
        case _ =>
          StepsPreserveValid(s, Failure(""));
      }
      RunPreservesValid(Apply(s, steps[0]), steps[1..]);
    }
  }

  /** After a failure, no sequence of `loadMoreData` calls alone ever schedules a task. */
  lemma {:induction false} FailureBlocksLoadMore(s: Snapshot, n: nat)
    requires !s.isLoading && !s.hasMoreData
    ensures Run(s, seq(n, _ => LoadMore)) == s
    decreases n
  {
    if n > 0 {
      var steps := seq(n, _ => LoadMore);
      assert steps[0] == LoadMore && steps[1..] == seq(n - 1, _ => LoadMore);
      FailureBlocksLoadMore(s, n - 1);
    }
  }

  /** `UserListState.==` is equality, except that it identifies all errors. */
  lemma StateEqualsMeaning(a: UserListState, b: UserListState)
    ensures StateEquals(a, b) <==> a == b || (a.Error? && b.Error?)
  {
  }

  /** `UserListState.==` is an equivalence. */
  lemma StateEqualsEquivalence(a: UserListState, b: UserListState, c: UserListState)
    ensures StateEquals(a, a)
    ensures StateEquals(a, b) ==> StateEquals(b, a)
    ensures StateEquals(a, b) && StateEquals(b, c) ==> StateEquals(a, c)
  {
  }
}
