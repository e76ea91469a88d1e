/**
 * The hook's documented behaviour on concrete invocations, each driven
 * through `Hook.Run` with the collaborators set up as the behaviour
 * describes, plus running the hook twice on one message.
 */
module Scenarios {
  import opened Wrappers
  import opened Trailer
  import opened Collaborators
  import opened PrepareCommitMessage

  const Story: string := "8675309"

  /**
   * An existing commit (`-c`, `-C`, `--amend`): whatever the branch and the
   * message hold, the run succeeds without asking either of them and without
   * touching the message.
   */
  method ExistingCommit(story: Option<string>, cited: set<string>, keyword: Option<string>)
    returns (o: Outcome, trailers: seq<string>, ghost lookups: nat, ghost queries: nat)
    requires story.Some? ==> IsStoryNumber(story.value)
    ensures o == SkipExistingCommit
    ensures trailers == [] && lookups == 0 && queries == 0
  {
    var made := Hook.New(["FILE2", "commit", "60a086f3"]);
    var hook := made.value;
    var branch := new Branch(story);
    var msg := new CommitMessage("FILE2", cited, keyword);
    o := hook.Run(branch, msg);
    trailers, lookups, queries := msg.trailers, branch.lookups, msg.queries;
  }

  /** A branch without a story number: the run succeeds and appends nothing. */
  method NoStory(cited: set<string>, keyword: Option<string>) returns (o: Outcome, trailers: seq<string>, ghost queries: nat)
    ensures o == SkipNoStory
    ensures trailers == [] && queries == 0
  {
    var made := Hook.New(["FILE1"]);
    var hook := made.value;
    var branch := new Branch(None);
    var msg := new CommitMessage("FILE1", cited, keyword);
    o := hook.Run(branch, msg);
    trailers, queries := msg.trailers, msg.queries;
  }

  /** Story 8675309, not yet mentioned, no keyword: the message gains exactly `[#8675309]`. */
  method AppendsNumber() returns (o: Outcome, trailers: seq<string>)
    ensures o == Appended("[#8675309]")
    ensures trailers == ["[#8675309]"]
  {
    var made := Hook.New(["FILE1"]);
    var hook := made.value;
    var branch := new Branch(Some(Story));
    var msg := new CommitMessage("FILE1", {}, None);
    assert !msg.Mentions(Story);
    assert BuildToken(Story, None) == "[#8675309]";
    o := hook.Run(branch, msg);
    trailers := msg.trailers;
  }

  /** Story 8675309, not yet mentioned, keyword "Delivers": the message gains exactly `[Delivers #8675309]`. */
  method AppendsKeywordAndNumber() returns (o: Outcome, trailers: seq<string>)
    ensures o == Appended("[Delivers #8675309]")
    ensures trailers == ["[Delivers #8675309]"]
  {
    var made := Hook.New(["FILE1"]);
    var hook := made.value;
    var branch := new Branch(Some(Story));
    var msg := new CommitMessage("FILE1", {}, Some("Delivers"));
    assert !msg.Mentions(Story);
    assert BuildToken(Story, Some("Delivers")) == "[Delivers #8675309]";
    o := hook.Run(branch, msg);
    trailers := msg.trailers;
  }

  /** Story 8675309 already mentioned: the run succeeds and appends nothing. */
  method AlreadyMentioned(keyword: Option<string>) returns (o: Outcome, trailers: seq<string>)
    ensures o == SkipAlreadyMentioned
    ensures trailers == []
  {
    var made := Hook.New(["FILE1"]);
    var hook := made.value;
    var branch := new Branch(Some(Story));
    var msg := new CommitMessage("FILE1", {Story}, keyword);
    o := hook.Run(branch, msg);
    trailers := msg.trailers;
  }

  /** `.new(file)` or `.new(file, source)`, bound through `Hook.New`. */
  method NewHook(file: string, source: Option<string>) returns (hook: Hook)
    ensures fresh(hook) && hook.runs == 0
    ensures hook.file == file && hook.source == source && hook.commitSha == None
  {
    var invocation := Invocation(file, source, None);
    ArgumentsRoundTrip(invocation);
    var made := Hook.New(Arguments(invocation));
    hook := made.value;
  }

  /**
   * Running the hook twice on the same message and branch leaves at most one
   * trailer: if the first run appended, the second finds the story mentioned.
   */
  method RunTwice(source: Option<string>, story: Option<string>, cited: set<string>, keyword: Option<string>)
    returns (first: Outcome, second: Outcome, trailers: seq<string>)
    requires story.Some? ==> IsStoryNumber(story.value)
    ensures |trailers| <= 1
    ensures first.Appended? ==> second == SkipAlreadyMentioned && trailers == [first.token]
    ensures !first.Appended? ==> second == first && trailers == []
  {
    var hook := NewHook("FILE1", source);
    var branch := new Branch(story);
    var msg := new CommitMessage("FILE1", cited, keyword);
    first := hook.Run(branch, msg);
    if first.Appended? {
      assert first.token == BuildToken(story.value, keyword);
      StoryNumberHasNoHash(story.value);
      AppendedTrailerIsMentioned(cited, [], story.value, keyword);
      assert msg.Mentions(story.value);
    } else {
      assert msg.trailers == [];
    }
    second := hook.Run(branch, msg);
    trailers := msg.trailers;
  }
}
