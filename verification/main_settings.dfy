/**
 * The settings store of package `main` (settings.go): a GitHub token, a
 * username and the list of watched repository URLs. `persisted` is the state
 * the last `Save` wrote (None while this object has written nothing).
 */
module MainSettings {
  import opened Wrappers
  import opened RepositoryList

  /** What `Save` writes: the token, the username and the repository list. */
  datatype Snapshot = Snapshot(githubToken: string, username: string, repositories: seq<string>)

  class Settings {
    var GithubToken: string
    var Username: string
    var Repositories: seq<string>
    ghost var persisted: Option<Snapshot>

    function Current(): Snapshot
      reads this
    {
      Snapshot(GithubToken, Username, Repositories)
    }

    /** NewSettings: empty token and username, no repositories; nothing saved yet. */
    constructor ()
      ensures GithubToken == "" && Username == "" && Repositories == []
      ensures persisted == None
    {
      GithubToken := "";
      Username := "";
      Repositories := [];
      persisted := None;
    }

    /** Save: the configuration file now holds the in-memory state. */
    method Save()
      modifies this
      ensures persisted == Some(Current())
      ensures GithubToken == old(GithubToken) && Username == old(Username)
      ensures Repositories == old(Repositories)
    {
      persisted := Some(Current());
    }

    /** Only the token changes, even to "", and the result is saved. */
    method UpdateGitHubToken(token: string)
      modifies this
      ensures GithubToken == token
      ensures Username == old(Username) && Repositories == old(Repositories)
      ensures persisted == Some(Current())
    {
      GithubToken := token;
      Save();
    }

    /** Only the username changes, and the result is saved. */
    method UpdateUsername(username: string)
      modifies this
      ensures Username == username
      ensures GithubToken == old(GithubToken) && Repositories == old(Repositories)
      ensures persisted == Some(Current())
    {
      Username := username;
      Save();
    }

    /** The URL is appended without any duplicate or emptiness check, and saved. */
    method AddRepositoryUrl(repositoryUrl: string)
      modifies this
      ensures Repositories == old(Repositories) + [repositoryUrl]
      ensures GithubToken == old(GithubToken) && Username == old(Username)
      ensures persisted == Some(Current())
    {
      Repositories := Repositories + [repositoryUrl];
      Save();
    }

    /** Every entry equal to the URL is dropped, the rest keep their order; nothing is saved. */
    method DeleteRepositoryUrl(repositoryUrl: string)
      modifies this
      ensures Repositories == Without(old(Repositories), repositoryUrl)
      ensures repositoryUrl !in Repositories
      ensures GithubToken == old(GithubToken) && Username == old(Username)
      ensures persisted == old(persisted)
    {
      var repositories := Repositories;
      var updatedRepositories: seq<string> := [];
      for i := 0 to |repositories|
        invariant updatedRepositories == Without(repositories[..i], repositoryUrl)
        invariant unchanged(this)
      {
        assert repositories[..i + 1] == repositories[..i] + [repositories[i]];
        WithoutSnoc(repositories[..i], repositories[i], repositoryUrl);
        if repositories[i] == repositoryUrl {
          continue;
        }
        updatedRepositories := updatedRepositories + [repositories[i]];
      }
      assert repositories[..|repositories|] == repositories;
      Repositories := updatedRepositories;
    }
  }
}
