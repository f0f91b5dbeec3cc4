/**
 * The settings store of package `settings` (settings/settings.go): a GitHub
 * token and the list of watched repository URLs. Writing the configuration
 * file is modelled by `persisted`, the state the last `Save` wrote (None while
 * this object has written nothing).
 */
module StoreSettings {
  import opened Wrappers
  import opened RepositoryList

  /** What `Save` writes: the token and the repository list. */
  datatype Snapshot = Snapshot(githubToken: string, repositories: seq<string>)

  class Settings {
    var GithubToken: string
    var Repositories: seq<string>
    ghost var persisted: Option<Snapshot>

    function Current(): Snapshot
      reads this
    {
      Snapshot(GithubToken, Repositories)
    }

    /** NewSettings: an empty token and no repositories; nothing saved yet. */
    constructor ()
      ensures GithubToken == "" && Repositories == []
      ensures persisted == None
    {
      GithubToken := "";
      Repositories := [];
      persisted := None;
    }

    /** Save: the configuration file now holds the in-memory state. */
    method Save()
      modifies this
      ensures persisted == Some(Current())
      ensures GithubToken == old(GithubToken) && Repositories == old(Repositories)
    {
      persisted := Some(Current());
    }

    /** The token is overwritten, even with "", and saved; the repositories stay. */
    method UpdateGitHubToken(token: string)
      modifies this
      ensures GithubToken == token
      ensures Repositories == old(Repositories)
      ensures persisted == Some(Current())
    {
      GithubToken := token;
      Save();
    }

    /** The URL is appended without any duplicate or emptiness check, and saved. */
    method AddRepositoryUrl(repositoryUrl: string)
      modifies this
      ensures Repositories == old(Repositories) + [repositoryUrl]
      ensures GithubToken == old(GithubToken)
      ensures persisted == Some(Current())
    {
      Repositories := Repositories + [repositoryUrl];
      Save();
    }

    /** Every entry equal to the URL is dropped, the rest keep their order; nothing is saved. */
    method DeleteRepositoryUrl(repositoryUrl: string)
      modifies this
      ensures Repositories == Without(old(Repositories), repositoryUrl)
      ensures repositoryUrl !in Repositories
      ensures GithubToken == old(GithubToken)
      ensures persisted == old(persisted)
    {
      var repositories := Repositories;
      var updatedRepositories: seq<string> := [];
      for i := 0 to |repositories|
        invariant updatedRepositories == Without(repositories[..i], repositoryUrl)
        invariant unchanged(this)
      {
        assert repositories[..i + 1] == repositories[..i] + [repositories[i]];
        WithoutSnoc(repositories[..i], repositories[i], repositoryUrl);
        if repositories[i] == repositoryUrl {
          continue;
        }
        updatedRepositories := updatedRepositories + [repositories[i]];
      }
      assert repositories[..|repositories|] == repositories;
      Repositories := updatedRepositories;
    }
  }
}
