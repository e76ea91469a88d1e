/**
 * The two collaborators the hook consults, reduced to what the hook can
 * observe of them: the story number the current branch yields, and a commit
 * message that answers `mentions_story?` and `keyword` and accepts `append`.
 * Each counts the times it is consulted, so that a caller can state that the
 * hook never asked.
 */
module Collaborators {
  import opened Wrappers
  import opened Trailer

  /**
   * Whether a message mentions `story`: the original text already cites it
   * (`cited`), or one of the trailers appended since reads back as it.
   */
  predicate MessageMentions(cited: set<string>, trailers: seq<string>, story: string) {
    story in cited ||
    exists i :: 0 <= i < |trailers| && ParseToken(trailers[i]).Some? && ParseToken(trailers[i]).value.0 == story
  }

  /** A trailer just appended for `story` is seen by the mentions check from then on. */
  lemma AppendedTrailerIsMentioned(cited: set<string>, trailers: seq<string>, story: string, keyword: Option<string>)
    requires '#' !in story
    ensures MessageMentions(cited, trailers + [BuildToken(story, keyword)], story)
  {
    var ts := trailers + [BuildToken(story, keyword)];
    ParseBuild(story, keyword);
    assert ParseToken(ts[|trailers|]) == Some((story, keyword));
  }

  /** The current git branch, as far as the hook asks it for a story number. */
  class Branch {
    /** What `Branch.story_number` answers: the digits found in the branch name, or nil. */
    const storyNumber: Option<string>
    /** How many times the story number has been asked for. */
    ghost var lookups: nat

    /** The story number, when there is one, is a run of digits. */
    predicate Valid() {
      storyNumber.Some? ==> IsStoryNumber(storyNumber.value)
    }

    constructor (storyNumber: Option<string>)
      requires storyNumber.Some? ==> IsStoryNumber(storyNumber.value)
      ensures Valid()
      ensures this.storyNumber == storyNumber && lookups == 0
    {
      this.storyNumber := storyNumber;
      lookups := 0;
    }

    method StoryNumber() returns (s: Option<string>)
      modifies this`lookups
      ensures s == storyNumber
      ensures lookups == old(lookups) + 1
    {
      s := storyNumber;
      lookups := lookups + 1;
    }
  }

  /** The commit message held in the file git passes to the hook. */
  class CommitMessage {
    /** The name of the message file. */
    const file: string
    /** The story numbers the original text already references. */
    const cited: set<string>
    /** The action keyword the message carries (such as "Delivers"), if any. */
    const keyword: Option<string>
    /** The trailer tokens appended to the text, in order. */
    var trailers: seq<string>
    /** How many times the message has been asked `mentions_story?` or `keyword`. */
    ghost var queries: nat

    constructor (file: string, cited: set<string>, keyword: Option<string>)
      ensures this.file == file && this.cited == cited && this.keyword == keyword
      ensures trailers == [] && queries == 0
    {
      this.file := file;
      this.cited := cited;
      this.keyword := keyword;
      trailers := [];
      queries := 0;
    }

    predicate Mentions(story: string)
      reads this
    {
      MessageMentions(cited, trailers, story)
    }

    method MentionsStory(story: string) returns (b: bool)
      modifies this`queries
      ensures b == Mentions(story)
      ensures queries == old(queries) + 1
    {
      b := Mentions(story);
      queries := queries + 1;
    }

    method Keyword() returns (k: Option<string>)
      modifies this`queries
      ensures k == keyword
      ensures queries == old(queries) + 1
    {
      k := keyword;
      queries := queries + 1;
    }

    /** Appends `token` to the text; no deduplication happens here. */
    method Append(token: string)
      modifies this`trailers
      ensures trailers == old(trailers) + [token]
    {
      trailers := trailers + [token];
    }
  }
}
