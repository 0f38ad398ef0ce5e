/**
 * `TxUserDetailViewModel`: loads the detail of the user fixed at construction. As for the
 * list, a fetch is the call (guard, `isLoading = true`) followed later by the completion of
 * the scheduled task.
 */
module UserDetailViewModel {
  import opened Wrappers
  import opened GithubModels
  import opened UserUIMapper
  import opened Navigation

  /** The model's fields; `pending` tells whether a scheduled task has not completed yet. */
  datatype Snapshot = Snapshot(
    isLoading: bool,
    user: Option<UserDetailUI<string>>,
    errorMessage: Option<string>,
    dataLoaded: bool,
    userId: string,
    pending: bool)

  /** The state after `init(userId:)`. */
  function Initial(userId: string): (s: Snapshot)
    ensures !s.isLoading && s.user.None? && s.errorMessage.None? && !s.dataLoaded
    ensures s.userId == userId && !s.pending
  {
    Snapshot(false, None, None, false, userId, false)
  }

  predicate Valid(s: Snapshot) {
    (s.isLoading <==> s.pending) && (s.dataLoaded ==> s.user.Some?)
  }

  /** `fetchUserDetail()` up to the scheduled task. */
  function BeginFetch(s: Snapshot): Snapshot {
    if s.isLoading then s else s.(isLoading := true, pending := true)
  }

  /** The scheduled task, given the outcome of `getUserDetail(userId:)`. */
  function Complete(s: Snapshot, outcome: Result<GithubUser<string>, string>): Snapshot
    requires s.pending
  {
    match outcome
    case Success(u) => s.(user := Some(ToMapDetailUI(u)), isLoading := false, dataLoaded := true, pending := false)
    case Failure(description) => s.(errorMessage := Some(description), isLoading := false, pending := false)
  }

  class TxUserDetailViewModel {
    var isLoading: bool
    var user: Option<UserDetailUI<string>>
    var errorMessage: Option<string>
    var dataLoaded: bool
    const userId: string
    var pending: bool

    function State(): Snapshot
      reads this
    {
      Snapshot(isLoading, user, errorMessage, dataLoaded, userId, pending)
    }

    constructor (userId: string)
      ensures State() == Initial(userId)
    {
      this.userId := userId;
      isLoading := false;
      user := None;
      errorMessage := None;
      dataLoaded := false;
      pending := false;
    }

    /** `fetchUserDetail()`: returns the identifier the scheduled task asks for, if one was scheduled. */
    method FetchUserDetail() returns (request: Option<string>)
      modifies this
      ensures State() == BeginFetch(old(State()))
      ensures request == if old(isLoading) then None else Some(userId)
    {
      if isLoading {
        return None;
      }
      isLoading := true;
      pending := true;
      request := Some(userId);
    }

    /** The scheduled task runs to its end. */
    method CompleteFetch(outcome: Result<GithubUser<string>, string>)
      requires pending
      modifies this
      ensures State() == Complete(old(State()), outcome)
    {
      match outcome {
        case Success(u) =>
          user := Some(ToMapDetailUI(u));
          isLoading := false;
          dataLoaded := true;
        case Failure(description) =>
          errorMessage := Some(description);
          isLoading := false;
      }
      pending := false;
    }

    /** `goBack()`: only the navigation call. */
    method GoBack(navigation: NavigationRecorder)
      modifies navigation
      ensures navigation.calls == old(navigation.calls) + [Back]
    {
      navigation.GoBack();
    }
  }

  /** The model starts valid, and each step keeps it valid. */
  lemma StepsPreserveValid(s: Snapshot, outcome: Result<GithubUser<string>, string>)
    ensures Valid(Initial(s.userId))
    ensures Valid(s) ==> Valid(BeginFetch(s))
    ensures Valid(s) && s.pending ==> Valid(Complete(s, outcome))
  {
  }

  /** A fetch while one is in flight does nothing. */
  lemma FetchGuard(s: Snapshot)
    ensures s.isLoading ==> BeginFetch(s) == s
    ensures !s.isLoading ==> BeginFetch(s).isLoading && BeginFetch(s).pending
  {
  }

  /** A success shows the mapped user; a failure keeps what was shown and records the error. */
  lemma CompletionEffect(s: Snapshot, u: GithubUser<string>, description: string)
    requires s.pending
    ensures var t := Complete(s, Success(u));
            t.user == Some(ToMapDetailUI(u)) && !t.isLoading && t.dataLoaded
    ensures var t := Complete(s, Failure(description));
            !t.isLoading && t.errorMessage == Some(description)
            && t.user == s.user && t.dataLoaded == s.dataLoaded
  {
  }

  datatype Step = Fetch | Finish(outcome: Result<GithubUser<string>, string>)

  function Apply(s: Snapshot, step: Step): Snapshot {
    match step
    case Fetch => BeginFetch(s)
    case Finish(outcome) => if s.pending then Complete(s, outcome) else s
  }

  function Run(s: Snapshot, steps: seq<Step>): Snapshot
    decreases |steps|
  {
    if |steps| == 0 then s else Run(Apply(s, steps[0]), steps[1..])
  }

  /**
   * Along any sequence of steps the identifier stays the one given at construction, and
   * `dataLoaded`, once true, stays true.
   */
  lemma {:induction false} RunKeepsUserIdAndLatch(s: Snapshot, steps: seq<Step>)
    ensures Run(s, steps).userId == s.userId
    ensures s.dataLoaded ==> Run(s, steps).dataLoaded
    decreases |steps|
  {
    if |steps| > 0 {
      RunKeepsUserIdAndLatch(Apply(s, steps[0]), steps[1..]);
    }
  }
}
