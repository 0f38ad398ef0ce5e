/** `TxGithubConstants`: the page size and the display caps of the GitHub-profile feature. */
module GithubConstants {
  const PageSize: int := 20
  const MaxFollowerNumber: int := 100
  const MaxFollowingNumber: int := 10
}
