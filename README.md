# git_tracker `prepare-commit-msg` hook — Dafny model

git_tracker installs a git `prepare-commit-msg` hook that appends a Pivotal
Tracker story reference to the commit message being prepared. Git calls the
hook with the name of the commit-message file, optionally the message source
(`message`, `template`, `merge`, `squash`, `commit`) and optionally the SHA-1 of
an existing commit. `GitTracker::PrepareCommitMessage#run` then decides:

- source `"commit"` (the message of an existing commit is reused via `-c`, `-C`
  or `--amend`): exit successfully, asking nothing of the branch or message;
- the branch yields no story number: exit successfully, append nothing;
- the message already mentions the story: exit successfully, append nothing;
- otherwise append `[#<story>]`, or `[<Keyword> #<story>]` when the message
  carries a keyword such as `Delivers`.

The model is built from the behaviour the repository's RSpec suite for the hook
asserts. Files:

- `wrappers.dfy` — `Option` (Ruby's `nil`) and `Result` (a raised error).
- `trailer.dfy` — `BuildToken`, the trailer format, and its inverse
  `ParseToken`; round trip in both directions and injectivity.
- `collaborators.dfy` — `Branch` (what `Branch.story_number` answers) and
  `CommitMessage` (`mentions_story?`, `keyword`, `append`). These are the
  objects the suite stubs. Each keeps a counter of how often it was asked, so
  the model can state that the hook did not ask.
- `prepare_commit_message.dfy` — the pure decision `Decide`, argument binding
  for `.new` (`ParseArguments`), and the class `Hook` with its `file`, `source`
  and `commitSha` fields, `New`, `Run` and the class-level `Launch` (`.run`, which goes through `New`).
- `scenarios.dfy` — the suite's concrete cases run through `Hook.Run`, and
  a run repeated twice on the same message.

The keyword comes from the commit message (`commit_message.keyword`), as the
RSpec suite stubs it at spec/git_tracker/prepare_commit_message_spec.rb:66,78.

## Model

| member | source | states |
|---|---|---|
| Trailer.BuildToken | spec/git_tracker/prepare_commit_message_spec.rb:70-84 | the token is `[#<story>]` (length story+3) without a keyword; with one it starts with `[<keyword> `, ends with `#<story>]` and has length keyword+story+4, so it is exactly `[<keyword> #<story>]` |
| Trailer.ParseToken | spec/git_tracker/prepare_commit_message_spec.rb:70-84 | whatever it reads back as a story and keyword has a `#`-free story and is exactly the token `BuildToken` makes from them |
| Trailer.ParseBuild | spec/git_tracker/prepare_commit_message_spec.rb:70-84 | every token built from a `#`-free story reads back as that story and keyword |
| Trailer.BuildTokenInjective | spec/git_tracker/prepare_commit_message_spec.rb:70-84 | two different (story, keyword) pairs never give the same trailer |
| Collaborators.AppendedTrailerIsMentioned | spec/git_tracker/prepare_commit_message_spec.rb:87-95 | after the trailer for a story is appended, the message mentions that story |
| Collaborators.Branch.constructor | spec/git_tracker/prepare_commit_message_spec.rb:41 | a branch answers a fixed story number (digits) or nil, keeps that as its `Valid()` invariant, and has not been asked yet |
| Collaborators.Branch.StoryNumber | spec/git_tracker/prepare_commit_message_spec.rb:41 | returns the branch's story number and records one lookup |
| Collaborators.CommitMessage.constructor | spec/git_tracker/prepare_commit_message_spec.rb:63-67 | a message with the stories its text cites and its keyword, no trailers, not yet queried |
| Collaborators.CommitMessage.MentionsStory | spec/git_tracker/prepare_commit_message_spec.rb:87-90 | answers whether the text cites the story or an appended trailer reads back as it; records one query |
| Collaborators.CommitMessage.Keyword | spec/git_tracker/prepare_commit_message_spec.rb:75-79 | returns the message's keyword or nil; records one query |
| Collaborators.CommitMessage.Append | spec/git_tracker/prepare_commit_message_spec.rb:70-73 | adds exactly the given token after the existing trailers, with no deduplication |
| PrepareCommitMessage.Arguments | spec/git_tracker/prepare_commit_message_spec.rb:25-35 | an invocation is written as one to three positional arguments, the file name first |
| PrepareCommitMessage.ParseArguments | spec/git_tracker/prepare_commit_message_spec.rb:19-35 | zero arguments (or more than three) raise ArgumentError with the count given; otherwise the file, source and SHA are bound in order and written back give the same arguments |
| PrepareCommitMessage.ArgumentsRoundTrip | spec/git_tracker/prepare_commit_message_spec.rb:25-35 | binding the arguments of any invocation gives that invocation back: source and SHA are optional and independent of the file |
| PrepareCommitMessage.Decide | spec/git_tracker/prepare_commit_message_spec.rb:38-97 | each skip happens exactly when its condition holds (source `commit`; else no story; else already mentioned), and an append carries a trailer that reads back as the branch's story and the message's keyword |
| PrepareCommitMessage.SecondRunSkips | spec/git_tracker/prepare_commit_message_spec.rb:87-95 | once a run appended the trailer for a story, a second run on the same message skips as already mentioned |
| PrepareCommitMessage.Hook.constructor | spec/git_tracker/prepare_commit_message_spec.rb:25-35 | the hook remembers the file, source and SHA exactly as given |
| PrepareCommitMessage.Hook.New | spec/git_tracker/prepare_commit_message_spec.rb:19-35 | `.new` without a file name fails with ArgumentError; otherwise a fresh hook holds the bound arguments |
| PrepareCommitMessage.Hook.Run | spec/git_tracker/prepare_commit_message_spec.rb:38-97 | the outcome is `Decide` of the source, the branch's story, whether the message mentioned it and its keyword; an appended token reads back as that story and keyword; the message gains exactly the appended token or nothing; a `commit` source asks neither branch nor message, no story means the message is never asked, an already-mentioned story costs one query and an append two |
| PrepareCommitMessage.Hook.Launch | spec/git_tracker/prepare_commit_message_spec.rb:7-16 | `.run(*args)` goes through `.new`: bad arguments give ArgumentError and nothing is asked or appended; otherwise a fresh hook holding the bound arguments runs exactly once, with the same outcome, trailers and collaborator counts as `Run` |
| Scenarios.ExistingCommit | spec/git_tracker/prepare_commit_message_spec.rb:44-50 | with source `commit` and SHA `60a086f3`, for any branch and message: skip, no trailer, no lookup, no query |
| Scenarios.NoStory | spec/git_tracker/prepare_commit_message_spec.rb:52-58 | a branch without a story number: skip and no trailer, the message never asked |
| Scenarios.AppendsNumber | spec/git_tracker/prepare_commit_message_spec.rb:61-73 | story `8675309`, not mentioned, no keyword: the message gains exactly `[#8675309]` |
| Scenarios.AppendsKeywordAndNumber | spec/git_tracker/prepare_commit_message_spec.rb:75-85 | story `8675309`, not mentioned, keyword `Delivers`: the message gains exactly `[Delivers #8675309]` |
| Scenarios.AlreadyMentioned | spec/git_tracker/prepare_commit_message_spec.rb:87-95 | story `8675309` already mentioned: skip, no trailer |
| Scenarios.RunTwice | spec/git_tracker/prepare_commit_message_spec.rb:87-95 | two runs on one message leave at most one trailer; after an append the second run skips as already mentioned |

## Left out

- How `Branch.story_number` finds the story number in the branch name: it asks git for the branch and matches digits. `Branch` takes the answer as a value and assumes it is a run of digits.
- How `CommitMessage` reads and writes the message file, and how `append` places the token in the text. The text is reduced to the stories it cites plus the list of appended trailers.
- How `mentions_story?` and `keyword` are computed. `keyword` is a fixed answer. `mentions_story?` is true when the story is among the cited ones or an appended trailer reads back as it. That rule is a choice of this model, used to state idempotence.
- Exiting the process: every `Outcome` stands for a successful exit (status 0), and I/O failures are not modelled.
- The order in which `#run` asks `mentions_story?` and `keyword`: the suite cannot observe it; the model asks `mentions_story?` first and `keyword` only before appending.
- Passing `nil` explicitly as an argument of `.new`: arguments are strings, as git passes them.
- RSpec doubles and stubs, and installing the hook into `.git/hooks`.
