/**
 * The git client the publisher drives (`IGitAPI` over one working
 * directory), reduced to the state it changes: the set of local tag names,
 * the log of pushes made, and how many clients are currently open. Whether
 * a call throws is decided by an oracle keyed by the call site and the
 * operation; a call that throws changes nothing.
 */
module GitClient {
  import opened Jenkins

  /** One `push(remote, refspec)` that went through. */
  datatype PushRecord = PushRecord(remote: Remote, refspec: string)

  /** The repository state a publish run can change. */
  datatype GitState = GitState(tags: set<string>, pushes: seq<PushRecord>)

  /** Where in a publish run a git call is made: the merge stage, or the
      entry at `index` of the tag or branch list. */
  datatype Site = MergeSite | TagSite(index: nat) | BranchSite(index: nat)

  /** The git calls: opening a client (`new GitAPI(...)` inside
      `FilePath.act`), closing it, and the four operations on it. */
  datatype Op =
    | OpenClient
    | CloseClient
    | DeleteTag(name: string)
    | CreateTag(name: string, message: string)
    | TagExists(name: string)
    | PushRef(remote: Remote, refspec: string)

  /** Decides, per site and operation, whether the call throws. */
  type Oracle = (Site, Op) -> bool

  /** The environment variables git reads the committer and author
      identity from (`GitConstants.GIT_*_ENV_VAR`). */
  const CommitterNameKey := "GIT_COMMITTER_NAME"
  const AuthorNameKey := "GIT_AUTHOR_NAME"
  const CommitterEmailKey := "GIT_COMMITTER_EMAIL"
  const AuthorEmailKey := "GIT_AUTHOR_EMAIL"

  /** The two `GitConstants` strings the merge stage builds its tag from:
      the internal tag name prefix and the tag comment prefix. */
  datatype Naming = Naming(tagPrefix: string, commentPrefix: string)

  class GitRepo {
    var tags: set<string>
    var pushes: seq<PushRecord>
    /** Clients acquired and not yet closed. */
    var openClients: nat
    const throws: Oracle

    function State(): GitState
      reads this
    {
      GitState(tags, pushes)
    }

    constructor (tags: set<string>, throws: Oracle)
      ensures State() == GitState(tags, []) && openClients == 0 && this.throws == throws
    {
      this.tags := tags;
      this.pushes := [];
      this.openClients := 0;
      this.throws := throws;
    }

    /** Acquires a client; when this throws, nothing is acquired. */
    method Open(site: Site) returns (thrown: bool)
      modifies this
      ensures thrown == throws(site, OpenClient)
      ensures State() == old(State())
      ensures openClients == if thrown then old(openClients) else old(openClients) + 1
    {
      thrown := throws(site, OpenClient);
      if !thrown {
        openClients := openClients + 1;
      }
    }

    /** `git.close()`, in the `finally` of every use. The client is given
        up even when the call throws. */
    method Close(site: Site) returns (thrown: bool)
      requires openClients > 0
      modifies this
      ensures thrown == throws(site, CloseClient)
      ensures State() == old(State())
      ensures openClients == old(openClients) - 1
    {
      thrown := throws(site, CloseClient);
      openClients := openClients - 1;
    }

    /** `git.deleteTag(name)`: afterwards `name` is not a tag. */
    method DeleteTag(site: Site, name: string) returns (thrown: bool)
      requires openClients > 0
      modifies this
      ensures thrown == throws(site, Op.DeleteTag(name))
      ensures tags == if thrown then old(tags) else old(tags) - {name}
      ensures pushes == old(pushes) && openClients == old(openClients)
    {
      thrown := throws(site, Op.DeleteTag(name));
      if !thrown {
        tags := tags - {name};
      }
    }

    /** `git.tag(name, message)`: afterwards `name` is a tag. */
    method Tag(site: Site, name: string, message: string) returns (thrown: bool)
      requires openClients > 0
      modifies this
      ensures thrown == throws(site, CreateTag(name, message))
      ensures tags == if thrown then old(tags) else old(tags) + {name}
      ensures pushes == old(pushes) && openClients == old(openClients)
    {
      thrown := throws(site, CreateTag(name, message));
      if !thrown {
        tags := tags + {name};
      }
    }

    /** `git.tagExists(name)`. */
    method TagExists(site: Site, name: string) returns (thrown: bool, present: bool)
      requires openClients > 0
      ensures thrown == throws(site, Op.TagExists(name))
      ensures !thrown ==> present == (name in tags)
    {
      thrown := throws(site, Op.TagExists(name));
      present := name in tags;
    }

    /** `git.push(remote, refspec)`: the push is appended to the log. */
    method Push(site: Site, remote: Remote, refspec: string) returns (thrown: bool)
      requires openClients > 0
      modifies this
      ensures thrown == throws(site, PushRef(remote, refspec))
      ensures pushes == if thrown then old(pushes) else old(pushes) + [PushRecord(remote, refspec)]
      ensures tags == old(tags) && openClients == old(openClients)
    {
      thrown := throws(site, PushRef(remote, refspec));
      if !thrown {
        pushes := pushes + [PushRecord(remote, refspec)];
      }
    }
  }
}
