/** `TxGithubUserDTO.toDomainUser`: every missing field gets a default. */
module GithubUserParser {
  import opened Wrappers
  import opened GithubModels

  /** `toDomainUser()`: 0 for a missing number, "" for a missing string. */
  function ToDomainUser(dto: GithubUserDto): (u: GithubUser<int>)
    ensures u.id == dto.id.GetOr(0)
    ensures u.name == dto.name.GetOr("") && u.username == dto.login.GetOr("")
    ensures u.avatarUrl == dto.avatar_url.GetOr("") && u.landingPageUrl == dto.html_url.GetOr("")
    ensures u.location == dto.location.GetOr("") && u.blogUrl == dto.blog.GetOr("")
    ensures u.followers == dto.followers.GetOr(0) && u.following == dto.following.GetOr(0)
  {
    GithubUser(
      dto.id.GetOr(0),
      dto.name.GetOr(""),
      dto.login.GetOr(""),
      dto.avatar_url.GetOr(""),
      dto.html_url.GetOr(""),
      dto.location.GetOr(""),
      dto.followers.GetOr(0),
      dto.following.GetOr(0),
      dto.blog.GetOr(""))
  }

  /** The DTO the API would send for a user, every field present. */
  function FromDomainUser(u: GithubUser<int>): GithubUserDto {
    GithubUserDto(Some(u.username), Some(u.id), Some(u.avatarUrl), Some(u.landingPageUrl),
                  Some(u.name), Some(u.blogUrl), Some(u.location), Some(u.followers), Some(u.following))
  }

  /** Present fields are copied unchanged: a complete DTO round-trips through the domain model. */
  lemma CompleteDtoRoundTrip(u: GithubUser<int>)
    ensures ToDomainUser(FromDomainUser(u)) == u
  {
  }

  /** `login`, `html_url` and `blog` feed `username`, `landingPageUrl` and `blogUrl`. */
  lemma RenamedFields(dto: GithubUserDto, login: string, htmlUrl: string, blog: string)
    requires dto.login == Some(login) && dto.html_url == Some(htmlUrl) && dto.blog == Some(blog)
    ensures ToDomainUser(dto).username == login
    ensures ToDomainUser(dto).landingPageUrl == htmlUrl
    ensures ToDomainUser(dto).blogUrl == blog
  {
  }

  /** An empty DTO gives the all-default user. */
  lemma EmptyDtoDefaults()
    ensures ToDomainUser(GithubUserDto(None, None, None, None, None, None, None, None, None))
      == GithubUser(0, "", "", "", "", "", 0, 0, "")
  {
  }
}
