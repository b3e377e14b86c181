/**
 * The parts of the CI framework the publisher reads or writes: the ordered
 * build result, the build itself (its one mutable field is the result), the
 * project's SCM configuration and the merge options of a Git SCM.
 */
module Jenkins {
  import opened Wrappers

  /** `hudson.model.Result`, in its severity order: each is worse than the
      ones before it. */
  datatype Result = SUCCESS | UNSTABLE | FAILURE | NOT_BUILT | ABORTED {

    function Ordinal(): nat {
      match this
      case SUCCESS => 0
      case UNSTABLE => 1
      case FAILURE => 2
      case NOT_BUILT => 3
      case ABORTED => 4
    }

    predicate IsWorseThan(that: Result) {
      Ordinal() > that.Ordinal()
    }

    predicate IsBetterOrEqualTo(that: Result) {
      Ordinal() <= that.Ordinal()
    }

    /** `Result.toString()`: the result's name in capitals. */
    function Name(): string {
      match this
      case SUCCESS => "SUCCESS"
      case UNSTABLE => "UNSTABLE"
      case FAILURE => "FAILURE"
      case NOT_BUILT => "NOT_BUILT"
      case ABORTED => "ABORTED"
    }
  }

  /** The result a build has after `setResult(r)`: the framework lets a
      result only get worse, so the outcome is the worse of the two. */
  function Worsened(current: Result, r: Result): (w: Result)
    ensures w == current || w == r
    ensures !current.IsWorseThan(w) && !r.IsWorseThan(w)
  {
    if r.IsWorseThan(current) then r else current
  }

  /** Distinct results have distinct names, so the name appended to a tag
      identifies the result. */
  lemma NameIsInjective(a: Result, b: Result)
    requires a.Name() == b.Name()
    ensures a == b
  {
    match a
    case SUCCESS => assert b.Name()[0] == 'S';
    case UNSTABLE => assert b.Name()[0] == 'U';
    case FAILURE => assert b.Name()[0] == 'F';
    case NOT_BUILT => assert b.Name()[0] == 'N';
    case ABORTED => assert b.Name()[0] == 'A';
  }

  /** Build environment variables (`EnvVars`). */
  type Environment = map<string, string>

  /** A configured remote (`RemoteConfig`), by its name and URL. */
  datatype Remote = Remote(name: string, url: string)

  /** `PreBuildMergeOptions` of a Git SCM: whether a merge is configured,
      the remote merged from (null when unset) and the target branch. */
  datatype MergeOptions = MergeOptions(doMerge: bool, mergeRemote: Option<Remote>, mergeTarget: string)

  /** The SCM of the built project: a Git SCM with its remotes by name
      (`getRepositoryByName`), its merge options and the committer identity
      it configures, or some other SCM. */
  datatype Scm =
    | OtherScm
    | GitScm(remotes: map<string, Remote>, mergeOptions: MergeOptions,
             configName: Option<string>, configEmail: Option<string>)

  /** What a build exposes that does not change while publishing: whether
      it is one configuration run of a matrix build, the project's name and
      SCM, the build number, and the captured environment (None when
      `getEnvironment` throws an IOException). */
  datatype BuildInfo = BuildInfo(
    isMatrixRun: bool,
    projectName: string,
    number: int,
    scm: Scm,
    environment: Option<Environment>)

  /** A build being published: fixed facts plus its result, which a
      publisher may only make worse. */
  class Build {
    const info: BuildInfo
    var result: Result

    constructor (info: BuildInfo, result: Result)
      ensures this.info == info && this.result == result
    {
      this.info := info;
      this.result := result;
    }

    /** `Run.setResult`. */
    method SetResult(r: Result)
      modifies this
      ensures result == Worsened(old(result), r)
    {
      if r.IsWorseThan(result) {
        result := r;
      }
    }
  }
}
