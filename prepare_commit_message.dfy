/**
 * The `prepare-commit-msg` hook of git_tracker. Git calls it with the name of
 * the commit-message file, optionally the message source and optionally the
 * SHA-1 of an existing commit. The hook leaves the message alone when the
 * commit already exists, when the branch carries no story number, or when
 * the message already mentions the story; otherwise it appends the trailer
 * `[#<story>]` or `[<Keyword> #<story>]`. Every outcome is a successful exit.
 */
module PrepareCommitMessage {
  import opened Wrappers
  import opened Trailer
  import opened Collaborators

  /** The message source git reports when an existing commit's message is reused (`-c`, `-C`, `--amend`). */
  const CommitSource: string := "commit"

  /** How a run ends. Each case stands for exiting with status 0. */
  datatype Outcome =
    | SkipExistingCommit
    | SkipNoStory
    | SkipAlreadyMentioned
    | Appended(token: string)

  /** Ruby's error for calling `.new` with the wrong number of arguments. */
  datatype ArgumentError = WrongNumberOfArguments(given: nat)

  /** The hook's positional arguments: `new(file, source = nil, commit_sha = nil)`. */
  datatype Invocation = Invocation(file: string, source: Option<string>, commitSha: Option<string>)

  /** An invocation that positional arguments can express: a SHA only after a source. */
  predicate Positional(inv: Invocation) {
    inv.commitSha.Some? ==> inv.source.Some?
  }

  /** The argument list that denotes `inv`. */
  function Arguments(inv: Invocation): (args: seq<string>)
    requires Positional(inv)
    ensures 1 <= |args| <= 3 && args[0] == inv.file
  {
    [inv.file]
    + (if inv.source.Some? then [inv.source.value] else [])
    + (if inv.commitSha.Some? then [inv.commitSha.value] else [])
  }

  /**
   * Binds the arguments of `.new`: the file name is required, the source
   * and the SHA are optional, and anything else raises ArgumentError.
   */
  function ParseArguments(args: seq<string>): (r: Result<Invocation, ArgumentError>)
    ensures r.Err? <==> |args| == 0 || |args| > 3
    ensures r.Err? ==> r.error == WrongNumberOfArguments(|args|)
    ensures r.Ok? ==> Positional(r.value) && Arguments(r.value) == args
  {
    if |args| == 0 || |args| > 3 then Err(WrongNumberOfArguments(|args|))
    else
      Ok(Invocation(args[0],
                    if |args| > 1 then Some(args[1]) else None,
                    if |args| > 2 then Some(args[2]) else None))
  }

  /** Every invocation survives being written out as arguments and bound again. */
  lemma ArgumentsRoundTrip(inv: Invocation)
    requires Positional(inv)
    ensures ParseArguments(Arguments(inv)) == Ok(inv)
  {
  }

  /**
   * The decision of one run, given the message source, the branch's story
   * number, whether the message already mentions that story, and the
   * message's keyword.
   */
  function Decide(source: Option<string>, story: Option<string>, mentioned: bool, keyword: Option<string>): (o: Outcome)
    ensures o == SkipExistingCommit <==> source == Some(CommitSource)
    ensures o == SkipNoStory <==> source != Some(CommitSource) && story.None?
    ensures o == SkipAlreadyMentioned <==> source != Some(CommitSource) && story.Some? && mentioned
    ensures o.Appended? ==> story.Some? && ('#' !in story.value ==> ParseToken(o.token) == Some((story.value, keyword)))
  {
    if source == Some(CommitSource) then SkipExistingCommit
    else if story.None? then SkipNoStory
    else if mentioned then SkipAlreadyMentioned
    else
      assert '#' !in story.value ==> ParseToken(BuildToken(story.value, keyword)) == Some((story.value, keyword)) by {
        if '#' !in story.value { ParseBuild(story.value, keyword); }
      }
      Appended(BuildToken(story.value, keyword))
  }

  /**
   * Idempotence: once a run has appended the trailer for a story, a second
   * run on the same message finds the story mentioned and appends nothing,
   * whatever keyword it sees.
   */
  lemma SecondRunSkips(source: Option<string>, story: string, cited: set<string>, trailers: seq<string>,
                       keyword: Option<string>, keyword': Option<string>)
    requires '#' !in story
    requires Decide(source, Some(story), MessageMentions(cited, trailers, story), keyword).Appended?
    ensures var o := Decide(source, Some(story), MessageMentions(cited, trailers, story), keyword);
      Decide(source, Some(story), MessageMentions(cited, trailers + [o.token], story), keyword') == SkipAlreadyMentioned
  {
    AppendedTrailerIsMentioned(cited, trailers, story, keyword);
  }

  /** A hook invocation: the message file and the optional source and SHA it was given. */
  class Hook {
    const file: string
    const source: Option<string>
    const commitSha: Option<string>
    /** How many times `Run` has been called on this hook. */
    ghost var runs: nat

    constructor (file: string, source: Option<string>, commitSha: Option<string>)
      ensures this.file == file && this.source == source && this.commitSha == commitSha
      ensures runs == 0
    {
      this.file := file;
      this.source := source;
      this.commitSha := commitSha;
      runs := 0;
    }

    /** `.new(*args)`: raises ArgumentError unless given one to three arguments. */
    static method New(args: seq<string>) returns (r: Result<Hook, ArgumentError>)
      ensures r.Err? <==> ParseArguments(args).Err?
      ensures r.Err? ==> r.error == ParseArguments(args).error
      ensures r.Ok? ==> fresh(r.value) && r.value.runs == 0
      ensures r.Ok? ==> Invocation(r.value.file, r.value.source, r.value.commitSha) == ParseArguments(args).value
    {
      match ParseArguments(args)
      case Err(e) =>
        r := Err(e);
      case Ok(inv) =>
        var hook := new Hook(inv.file, inv.source, inv.commitSha);
        r := Ok(hook);
    }

    /**
     * `#run`: decides as `Decide` does, asking the branch and the message
     * only as far as the decision needs, and appends at most one trailer.
     */
    method Run(branch: Branch, msg: CommitMessage) returns (o: Outcome)
      requires branch.Valid() && msg.file == file
      modifies this`runs, branch`lookups, msg`trailers, msg`queries
      ensures runs == old(runs) + 1
      ensures o == Decide(source, branch.storyNumber,
                          branch.storyNumber.Some? && old(msg.Mentions(branch.storyNumber.value)),
                          msg.keyword)
      ensures o.Appended? ==> ParseToken(o.token) == Some((branch.storyNumber.value, msg.keyword))
      ensures msg.trailers == old(msg.trailers) + (if o.Appended? then [o.token] else [])
      ensures branch.lookups == old(branch.lookups) + (if source == Some(CommitSource) then 0 else 1)
      ensures o.SkipExistingCommit? || o.SkipNoStory? ==> msg.queries == old(msg.queries)
      ensures o.SkipAlreadyMentioned? ==> msg.queries == old(msg.queries) + 1
      ensures o.Appended? ==> msg.queries == old(msg.queries) + 2
    {
      runs := runs + 1;
      if source == Some(CommitSource) {
        return SkipExistingCommit;
      }
      var story := branch.StoryNumber();
      if story.None? {
        return SkipNoStory;
      }
      var mentioned := msg.MentionsStory(story.value);
      if mentioned {
        return SkipAlreadyMentioned;
      }
      var keyword := msg.Keyword();
      var token := BuildToken(story.value, keyword);
      msg.Append(token);
      o := Appended(token);
    }

    /**
     * `.run(*args)`: builds a hook with `.new(*args)` and runs it exactly
     * once; when `.new` raises ArgumentError nothing runs.
     */
    static method Launch(args: seq<string>, branch: Branch, msg: CommitMessage)
      returns (r: Result<Hook, ArgumentError>, o: Option<Outcome>)
      requires branch.Valid() && (|args| > 0 ==> msg.file == args[0])
      modifies branch`lookups, msg`trailers, msg`queries
      ensures r.Err? <==> ParseArguments(args).Err?
      ensures r.Err? ==> r.error == ParseArguments(args).error && o.None?
      ensures r.Err? ==> branch.lookups == old(branch.lookups) && msg.queries == old(msg.queries)
      ensures r.Err? ==> msg.trailers == old(msg.trailers)
      ensures r.Ok? ==> fresh(r.value) && r.value.runs == 1 && o.Some?
      ensures r.Ok? ==> Invocation(r.value.file, r.value.source, r.value.commitSha) == ParseArguments(args).value
      ensures r.Ok? ==> o.value == Decide(r.value.source, branch.storyNumber,
                                         branch.storyNumber.Some? && old(msg.Mentions(branch.storyNumber.value)),
                                         msg.keyword)
      ensures r.Ok? && o.value.Appended? ==> ParseToken(o.value.token) == Some((branch.storyNumber.value, msg.keyword))
      ensures r.Ok? ==> msg.trailers == old(msg.trailers) + (if o.value.Appended? then [o.value.token] else [])
      ensures r.Ok? ==> branch.lookups == old(branch.lookups) + (if r.value.source == Some(CommitSource) then 0 else 1)
      ensures r.Ok? && (o.value.SkipExistingCommit? || o.value.SkipNoStory?) ==> msg.queries == old(msg.queries)
      ensures r.Ok? && o.value.SkipAlreadyMentioned? ==> msg.queries == old(msg.queries) + 1
      ensures r.Ok? && o.value.Appended? ==> msg.queries == old(msg.queries) + 2
    {
      r := New(args);
      match r
      case Err(_) =>
        o := None;
      case Ok(hook) =>
        var outcome := hook.Run(branch, msg);
        o := Some(outcome);
    }
  }
}
