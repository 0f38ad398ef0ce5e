/**
 * `TxGithubUser.toMapListUI` and `toMapDetailUI`: the UI models of a user. Follower and
 * following counts above their caps are shown as the cap followed by "+".
 */
module UserUIMapper {
  import opened Wrappers
  import opened GithubModels
  import opened GithubConstants
  import opened Decimal

  /** `toMapListUI()`: the username serves as both the displayed name and the login. */
  function ToMapListUI<Id>(u: GithubUser<Id>): (item: UserItemUI<Id>)
    ensures item.id == u.id && item.avatarUrl == u.avatarUrl
    ensures item.landingPageUrl == u.landingPageUrl && item.location == u.location
    ensures item.name == u.username && item.loginUsername == u.username
  {
    UserItemUI(u.id, u.username, u.username, u.avatarUrl, u.landingPageUrl, u.location)
  }

  /** `users.map { $0.toMapListUI() }`. */
  function MapListUI<Id>(users: seq<GithubUser<Id>>): (items: seq<UserItemUI<Id>>)
    ensures |items| == |users|
    ensures forall i :: 0 <= i < |users| ==> items[i] == ToMapListUI(users[i])
  {
    seq(|users|, i requires 0 <= i < |users| => ToMapListUI(users[i]))
  }

  /** A count as displayed: the cap and "+" above the cap, else the count in decimal. */
  function CountLabel(count: int, cap: int): string {
    if count > cap then IntToDecimal(cap) + "+" else IntToDecimal(count)
  }

  /** `toMapDetailUI()`. */
  function ToMapDetailUI<Id>(u: GithubUser<Id>): (d: UserDetailUI<Id>)
    ensures d.baseInfo == ToMapListUI(u) && d.blogUrl == u.blogUrl
    ensures d.followers == CountLabel(u.followers, MaxFollowerNumber)
    ensures d.following == CountLabel(u.following, MaxFollowingNumber)
  {
    var followersStr := CountLabel(u.followers, MaxFollowerNumber);
    var followingStr := CountLabel(u.following, MaxFollowingNumber);
    UserDetailUI(ToMapListUI(u), followersStr, followingStr, u.blogUrl)
  }

  /** Mapping a concatenation maps each part. */
  lemma MapListAppend<Id>(a: seq<GithubUser<Id>>, b: seq<GithubUser<Id>>)
    ensures MapListUI(a + b) == MapListUI(a) + MapListUI(b)
  {
  }

  /**
   * What a label says: it ends in "+" exactly when the count exceeds the cap, and the number
   * it shows is the count capped at the cap.
   */
  lemma CountLabelMeaning(count: int, cap: int)
    requires cap >= 0
    ensures var s := CountLabel(count, cap);
            var capped := if count > cap then cap else count;
            (s[|s| - 1] == '+' <==> count > cap)
            && (count > cap ==> ParseInt(s[..|s| - 1]) == Some(capped))
            && (count <= cap ==> ParseInt(s) == Some(capped))
  {
    var s := CountLabel(count, cap);
    if count > cap {
      assert s[..|s| - 1] == IntToDecimal(cap);
      DecimalRoundTrip(cap);
    } else {
      DecimalRoundTrip(count);
      if count < 0 {
        assert s[|s| - 1] == NatToDecimal(-count)[|NatToDecimal(-count)| - 1];
      }
    }
  }

  /** The boundaries of both caps. */
  lemma CapExamples()
    ensures CountLabel(100, MaxFollowerNumber) == "100" && CountLabel(101, MaxFollowerNumber) == "100+"
    ensures CountLabel(10, MaxFollowingNumber) == "10" && CountLabel(20, MaxFollowingNumber) == "10+"
  {
  }

  /**
   * Both mappings read only the user's fields and the caps; the domain `name` is not shown
   * at all, users differing only in it map to the same models.
   */
  lemma MappingIgnoresName<Id>(u: GithubUser<Id>, otherName: string)
    ensures ToMapListUI(u.(name := otherName)) == ToMapListUI(u)
    ensures ToMapDetailUI(u.(name := otherName)) == ToMapDetailUI(u)
  {
  }
}
