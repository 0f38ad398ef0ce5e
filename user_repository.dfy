/**
 * `TxUserRepositoryImpl`: an in-memory repository over a fixed list of seven users, with
 * string identifiers.
 */
module UserRepository {
  import opened Wrappers
  import opened Foundation
  import opened GithubModels

  const RepositoryErrorDomain: string := "TxUserRepository"

  function MockUser(id: string, name: string, username: string, avatarUrl: string,
                    followers: int, following: int): GithubUser<string> {
    GithubUser(id, name, username, avatarUrl, "https://www.linkedin.com/", "Vietnam",
               followers, following, "https://blog.abc")
  }

  /** `mockUsers`, in declaration order. */
  const MockUsers: seq<GithubUser<string>> := [
    MockUser("1", "David", "David Patel", "https://avatars.githubusercontent.com1/u/101?v=4", 100, 10),
    MockUser("2", "Lisa", "Lisa", "https://avatars.githubusercontent.com/u/102?v=4", 100, 10),
    MockUser("3", "Alex", "Alex", "https://avatars.githubusercontent.com/u/103?v=4", 100, 10),
    MockUser("4", "Piter", "Piter", "https://avatars.githubusercontent.com/u/104?v=4", 100, 10),
    MockUser("5", "Eddi", "Eddi", "https://avatars.githubusercontent.com/u/105?v=4", 100, 10),
    MockUser("6", "Ga", "Ga", "https://avatars.githubusercontent.com/u/106?v=4", 100, 10),
    MockUser("12", "Sandy", "Sandy", "https://avatars.githubusercontent.com/u/107?v=4", 101, 20)
  ]

  /** `getUsers(page:pageSize:)`: the whole list, whatever the page asked for. */
  function GetUsers(page: int, pageSize: int): (users: seq<GithubUser<string>>)
    ensures users == MockUsers
  {
    MockUsers
  }

  /** `first(where: { $0.id == userId })` over `users[from..]`. */
  function FirstWithId(users: seq<GithubUser<string>>, userId: string, from: nat): (r: Option<nat>)
    requires from <= |users|
    ensures r.Some? ==> from <= r.value < |users| && users[r.value].id == userId
    ensures r.Some? ==> forall j :: from <= j < r.value ==> users[j].id != userId
    ensures r.None? ==> forall j :: from <= j < |users| ==> users[j].id != userId
    decreases |users| - from
  {
    if from == |users| then None
    else if users[from].id == userId then Some(from)
    else FirstWithId(users, userId, from + 1)
  }

  /** `getUserDetail(userId:)`: the first user with the identifier, else a 404 error. */
  function GetUserDetail(userId: string): (r: Result<GithubUser<string>, NSError>)
    ensures r.Success? <==> exists i :: 0 <= i < |MockUsers| && MockUsers[i].id == userId
    ensures r.Success? ==> r.value.id == userId
    ensures r.Success? ==>
      exists i :: 0 <= i < |MockUsers| && MockUsers[i] == r.value
                  && forall j :: 0 <= j < i ==> MockUsers[j].id != userId
    ensures r.Failure? ==> r.error == NSError(RepositoryErrorDomain, 404)
  {
    match FirstWithId(MockUsers, userId, 0)
    case Some(i) => Success(MockUsers[i])
    case None => Failure(NSError(RepositoryErrorDomain, 404))
  }

  /** The identifiers of the fixed list are distinct, so the first match is the only one. */
  lemma IdsDistinct()
    ensures forall i, j :: 0 <= i < j < |MockUsers| ==> MockUsers[i].id != MockUsers[j].id
  {
  }

  /** Every listed user is found by its identifier. */
  lemma ListedUsersFound(i: nat)
    requires i < |MockUsers|
    ensures GetUserDetail(MockUsers[i].id) == Success(MockUsers[i])
  {
    IdsDistinct();
  }

  /** Examples: user "12" is Sandy, whose counts exceed both caps; "7" is not listed. */
  lemma LookupExamples()
    ensures GetUserDetail("12").Success? && GetUserDetail("12").value.name == "Sandy"
    ensures GetUserDetail("12").value.followers == 101 && GetUserDetail("12").value.following == 20
    ensures GetUserDetail("7") == Failure(NSError(RepositoryErrorDomain, 404))
  {
    ListedUsersFound(6);
    assert MockUsers[6].id == "12";
  }
}
