# Buckley: verified models of the concurrent and text-processing cores

This project models the parts of Buckley whose correctness is hard to see by reading one
function, and proves what they are meant to keep.

- **Review bot** (`Buckbot`, `BuckbotRuns`, `BuckbotFlow`, `BuckbotExclusivity`, `BuckbotPosts`). Any number of `handle` calls
  share four fields under one mutex. The mutex sections are methods of `Buckbot.Service`; the
  handlers are a step machine that interleaves those sections with calls to the reviewer, the
  poster, the announcer and the sleeper, whose answers are arbitrary. Proved over every run:
  the budget ledger is exact, `handle` obeys its retry bounds and posts only what it may, and
  supersession leaves one handler at work, exactly unless an old handler's deferred cleanup
  removes a newer handler's entry.
- **In-memory bus, task queue and pool** (`Bus`, `BusSafety`, `BusDelivery`, `BusLifecycle`, `SubjectMatch`,
  `TaskQueue`, `TaskPool`). The bus is a step machine over its atomic flags, its reader/writer
  lock and its channels; no interleaving sends on a closed channel or closes one twice. The queue
  with pool workers as clients keeps every task in exactly one place and its counters balanced.
- **Agent loop and wire framing** (`AcpLoop`, `AcpRules`, `Transport`). The tool loop is proved against an
  arbitrary model; the newline framing round-trips under concurrent writers.
- **Text and paths** (`CommitRefs`, `ArtifactPaths`). Close directives are gone after rewriting,
  also at the seams; artifact names are safe and pairwise distinct.
- **Policy and checks** (`ToolPolicy`, `Approval`, `ChatCheck`). Deny lists survive inheritance,
  approval modes widen, and an early-exit chain of checks equals a conjunction.

State machines are a `State`, a step and a run; `Reachable`/`IsRun` quantify over all of them.
Code that updates variables is a method proved equal to a function, and the results are lemmas
about that function. `Text` holds Go's string helpers.

Where the code does less than its comments or its design suggest, the model follows the code, and
what is proved is the condition under which it does, with an input or a run where it does not:

- exclusivity of handlers holds iff no step evicts a live owner; `RedeliveryBreaksExclusivity`
  is a run where it fails (a superseded head announced again);
- a revision is posted at most once unless its mark was missed or it was delivered again while
  still being handled (`PostedAtMostOnce`); either way it can be posted twice
  (`MissedMarkPostsTwice`, `OverlapPostsTwice`);
- the budget ledger is exact iff the per-review budget is not negative or nothing can be granted
  (`LedgerExactIff`, `ClampCanFire`);
- a cancellation among the tool calls of a round, and nothing else, leaves the transcript with
  calls unanswered (`WellFormedIffUncut`, `CancellationLeavesCallUnanswered`);
- `IssueRefLine` "never emits a close directive" holds iff the issue text itself has none; `fix #1`
  has one (`FooterCanClose`);
- the path prefix test is containment for every directory except the root, under which it finds
  only the root itself, so denying the root denies nothing (`DeniedRootDeniesNothing`);
- Safe allows something Auto does not exactly for git writes that look both local and forced,
  such as `git stash push -f`;
- replacing the first `>` of a pattern by `*` can lose matches (`StarCanLoseMatch`); the condition
  is stated. The matcher does not require `>` to be last: what follows it is ignored;
- a spec whose restricting tier no registered tool meets gets no restriction at all, unless a list
  names a tool (`UnrestrictedExactly`, `ReadOnlyCanBeUnrestricted`);
- artifact paths are safe iff the extension is, for extensions without a separator; one with
  separators climbs out iff its pieces do (`NamedPathStaysInside`, `ExtensionCanClimb`).

The framing is modelled for arbitrary bytes, and round-trips iff every message is non-empty,
newline-free and does not end in a carriage return; JSON encodings always are.

## Model

The rows down to `ChatCheck.RunSuite` are the results. The rows after it are the steps their
proofs take, and the links that carry them to the code: each link ties a method that changes state
step by step to the value function or property the results speak of.

| member | source | states |
|---|---|---|
| `Buckbot.RetryDelay` | cmd/buckley/buckbot.go:226-236 | The delay is the larger of the provider's request and min(15 s * 2^attempt, 300 s). |
| `BuckbotRuns.RunKeepsInv` | cmd/buckley/buckbot.go:75-182 | Every run of any number of handlers keeps the ledger, the ownership of entries, the discipline of histories and the origin of seen revisions. |
| `BuckbotRuns.LedgerIsExact` | cmd/buckley/buckbot.go:191-212 | In every reachable state reserved is the per-review budget times the handlers between reserve and settle, spent is the initial amount plus all positive settled costs, and their sum is at most max(initial, monthly) plus the overshoots. |
| `BuckbotRuns.ClampNeverFires` | cmd/buckley/buckbot.go:205-208 | No settlement of any run takes reserved below zero. |
| `BuckbotRuns.LedgerExactIff` | cmd/buckley/buckbot.go:191-212 | Reserved equals the open grants in every reachable state iff the per-review budget is not negative, or the initial spending already rules out every grant. |
| `BuckbotRuns.ClampCanFire` | cmd/buckley/buckbot.go:205-208 | With a negative budget and room for a grant, a run of two handlers comes to a settlement that takes reserved below zero; the clamp then leaves the ledger wrong. |
| `BuckbotRuns.HandleIsDisciplined` | cmd/buckley/buckbot.go:105-182 | One handle call makes at most six review calls, at most one of them paid, and eight post calls; each reservation is settled once; each post directly follows a positive currency check and carries the last review, error-free, not blank and within budget. When it must go on and when it may end is the two rows below. |
| `BuckbotFlow.EveryCallFollows` | cmd/buckley/buckbot.go:105-182 | In every reachable state every call of every handler directly follows one that calls for it: in particular a failed review is slept on and tried again iff it cost nothing, is retryable and was not the sixth, and a failed post iff it was not the eighth. |
| `BuckbotFlow.EndsOnlyForCause` | cmd/buckley/buckbot.go:105-182 | A handler cancels only directly after a refused reservation, a disturbed sleep, a negative currency check, a mark, the eighth failed post, or the settlement of a review that was blank, too dear, or a failure that cost money, was not retryable or was the sixth. |
| `BuckbotFlow.SleepsByTheRetry` | cmd/buckley/buckbot.go:131-178 | The sleep before the k-th retry of a review or a post is computed from k - 1. |
| `BuckbotFlow.CallsTellTheTruth` | cmd/buckley/buckbot.go:150-200 | A reservation is granted iff spent, reserved and one more fit the month; a currency check and a mark are positive iff the entry is for the revision, and a positive mark makes it seen. |
| `BuckbotFlow.ArrivalExactly` | cmd/buckley/buckbot.go:79-95 | A delivery is admitted iff its revision is neither seen nor being handled; then the entry is its handler's and exactly the former owner's context is cancelled; else nothing changes. |
| `BuckbotFlow.RunningCanStep` | cmd/buckley/buckbot.go:75-182 | A handler that runs is never stuck. |
| `BuckbotRuns.EveryPostIsDue` | cmd/buckley/buckbot.go:142-160 | Every post of every run directly follows a positive currency check and carries the text of a review without error and within the budget; the text has a character that is not white space. |
| `BuckbotRuns.PaidReviewIsLast` | cmd/buckley/buckbot.go:131-169 | After a post or a review that cost money the same handler never reviews again. |
| `BuckbotRuns.EntryBelongsToRunningHandler` | cmd/buckley/buckbot.go:86-103 | Every entry was written by a handler of that revision that is still running. |
| `BuckbotRuns.SeenGrowsAfterPost` | cmd/buckley/buckbot.go:156-169 | Seen never shrinks, and grows only by a revision that is current and whose handler's last call was a successful post. |
| `BuckbotRuns.SeenStopsLaterHandlers` | cmd/buckley/buckbot.go:79-85 | Once a revision is seen, a handler that arrives for it later does nothing but be refused, in every continuation of the run. |
| `BuckbotPosts.PostedAtMostOnce` | cmd/buckley/buckbot.go:155-169 | If no revision is delivered while an older handler of it runs and no handler of it found it superseded on coming to mark it, it is posted successfully at most once. |
| `BuckbotPosts.MissedMarkPostsTwice` | cmd/buckley/buckbot.go:162-168 | A run of fresh deliveries where a newer head arrives between a post and its mark, and the old head is posted twice. |
| `BuckbotPosts.OverlapPostsTwice` | cmd/buckley/buckbot.go:86-94 | A run where no mark is missed, the old head is delivered again while its handler is about to mark it, and it is posted twice. |
| `BuckbotExclusivity.ExclusiveMeansAtMostOne` | cmd/buckley/buckbot.go:86-94 | If live handlers own their entries, a pull request has at most one. |
| `BuckbotExclusivity.ExclusiveUnlessEvicted` | cmd/buckley/buckbot.go:86-103 | A step keeps exclusivity iff it is not a cleanup that removes another live handler's entry. |
| `BuckbotExclusivity.ExclusiveIffNeverEvicts` | cmd/buckley/buckbot.go:75-103 | All states of a run are exclusive iff none of its steps is that cleanup. |
| `BuckbotExclusivity.FreshDeliveriesExclude` | cmd/buckley/buckbot.go:75-103 | If no revision is admitted while an older handler of it still runs, every state of the run is exclusive and the live handler owns the entry. |
| `BuckbotExclusivity.RedeliveryBreaksExclusivity` | cmd/buckley/buckbot.go:96-103 | A concrete run under an ordinary budget, where the first handler unwinds after an interrupted review, ends with two live handlers for one pull request. |
| `BusSafety.NoRunPanics` | pkg/bus/memory.go:172-225 | In every interleaving no send meets a closed channel and no channel is closed twice. |
| `BusDelivery.NoMisdelivery` | pkg/bus/memory.go:46-60 | In every run each buffered message matches the pattern of its subscription. |
| `BusDelivery.PublishReachesEach` | pkg/bus/memory.go:46-60 | A publisher that goes through its list deals with every subscription registered for the subject when it took the lock, each exactly once: it skips those whose flag it finds up and puts the message last into the open channel of the others, unless its buffer is full. |
| `BusLifecycle.OpenIsListedOnce` | pkg/bus/memory.go:65-86 | In every run a subscription whose flag is down stands in the list of its own subject, in exactly one place. |
| `BusLifecycle.UnsubscribeTakesOutOne` | pkg/bus/memory.go:207-225 | An unsubscribe closes its channel and takes its one entry out of its subject's list; the other entries keep their order and the other lists are untouched. |
| `BusLifecycle.CloseShutsAll` | pkg/bus/memory.go:172-195 | When Close is through, every subscription registered when it took the lock has its flag up, and its channel is closed or about to be by one thread. |
| `BusLifecycle.ClosedBusRefuses` | pkg/bus/memory.go:32-41 | A Publish, Subscribe or Request that is not past its check when the bus is closed never does anything. |
| `BusLifecycle.RequestCleansUp` | pkg/bus/memory.go:94-153 | A Request that is over has unsubscribed its reply subscription. |
| `SubjectMatch.MatchSubject` | pkg/bus/memory.go:321-349 | The two-index matcher with its equality shortcut computes the recursive meaning of a pattern. |
| `SubjectMatch.MatchReflexive` | pkg/bus/memory.go:322-324 | The equality shortcut is redundant: every subject matches itself. |
| `SubjectMatch.MatchIsPositional` | pkg/bus/memory.go:319-349 | The recursive meaning equals a position-by-position one: `*` one token, the first `>` one or more. |
| `SubjectMatch.WildcardFreeMatchesOnlyItself` | pkg/bus/memory.go:321-349 | A pattern without wildcards matches a subject iff they are the same string. |
| `SubjectMatch.StarGeneralizes` | pkg/bus/memory.go:333-337 | Replacing a token by `*` keeps a match, iff the token is not the first `>` or what follows it still fits. |
| `SubjectMatch.StarCanLoseMatch` | pkg/bus/memory.go:333-340 | `a.>` matches `a.b.c`; `a.*` does not. |
| `SubjectMatch.TailGeneralizes` | pkg/bus/memory.go:338-340 | Replacing a non-empty suffix by `>` keeps every match. |
| `TaskPool.ExactlyOnePlace` | pkg/bus/memory.go:257-309 | In every reachable state a pushed task is in exactly one of: pending, received, inflight, being re-queued, acked, dropped; only pushed tasks are anywhere; and the channel and the inflight map hold a task exactly while that is its place, so it is never in both. |
| `TaskPool.PendingOnce` | pkg/bus/memory.go:257-284 | No task waits twice in the channel. |
| `TaskPool.NoTwoHolders` | pkg/agent/pool.go:234-262 | No task is held by two workers at once. |
| `TaskPool.AckedIsFinal` | pkg/agent/pool.go:264-311 | However the run goes on, an acked task is never pending, pulled or inflight again. |
| `TaskPool.CountersBalance` | pkg/agent/pool.go:264-311 | TasksProcessing equals the workers inside processTask; deliveries equal Acks plus Nacks, and completed plus failed, plus the workers still undecided; with nobody inside, the books are closed. Which delivery got which answer is the row below. |
| `TaskPool.EveryDeliveryAnsweredOnce` | pkg/agent/pool.go:264-311 | In every run each delivery to a worker is ruled once and followed by exactly one Ack or Nack, of the very task delivered and as the verdict asks, then by one counter, before the worker leaves or takes another. |
| `TaskPool.DeliveryExactly` | pkg/agent/pool.go:268-300 | A delivery is one of three: success, Ack, completed; unreadable, Ack, failed; failure, Nack, back into the channel unless the context ended, failed. |
| `TaskPool.CompletedOncePerTask` | pkg/agent/pool.go:64-70 | TasksCompleted counts pairwise different tasks, all of them acked. |
| `AcpLoop.NormalizedIds` | cmd/buckley/acp.go:765-771 | Afterwards no call has an empty identifier, given identifiers and everything else of the calls are kept, and no two made-up identifiers agree. |
| `AcpLoop.CallsGrow` | cmd/buckley/acp.go:773-815 | Dealing with n calls adds exactly their n responses to the transcript, injected system messages aside, and exactly one start and one end per call to the stream, thoughts aside, with nothing between a start and its end. |
| `AcpLoop.AskedBoundedly` | cmd/buckley/acp.go:606-680 | For every model: at most five more calls than tool turns, at most two tool nudges and one finalize nudge, tools once withdrawn never offered again, only parsed and allowed calls run; a run still going after n rounds has n - 4 tool turns or more. |
| `AcpLoop.RunIsProper` | cmd/buckley/acp.go:606-680 | What any run said, completed by the responses a cancellation left out, answers every call in order; a returned text is not blank and is the last message. |
| `AcpRules.ReturnedIsTheReply` | cmd/buckley/acp.go:643-671 | What a run returns is, unchanged, the text of the reply of the last round it began, a reply without tool calls. |
| `AcpRules.TextIsReturned` | cmd/buckley/acp.go:643-671 | A running loop that gets a non-blank text returns and records it, unless tools are on offer, fewer than two reminders were spent and the text only announces an action; then it reminds. |
| `AcpRules.BlankTextIsAnswered` | cmd/buckley/acp.go:648-667 | A blank text gets the demand for a final answer once if tools have run, a reminder if none have and it may still remind, and is an error otherwise. |
| `AcpRules.UselessReplyEnds` | cmd/buckley/acp.go:629-647 | A model error ends the loop unless it rejects the tools on offer, which are then withdrawn; no choice and no readable text end it. |
| `AcpRules.CallsAreTaken` | cmd/buckley/acp.go:674-678 | A reply with calls adds exactly the call message and one response per call reached, and the loop goes on. |
| `AcpRules.EachRoundAsksOnce` | cmd/buckley/acp.go:717-733 | Each round begun asks the model once, offering tools iff they are still in use and there are any. |
| `AcpRules.ExecutedIffToolTurn` | cmd/buckley/acp.go:677-678 | Tools count as executed iff there was a turn with calls. |
| `AcpRules.CallIsRun` | cmd/buckley/acp.go:773-815 | Every call reached whose arguments are blank or JSON and whose name the filter lists is run. |
| `AcpRules.OnlyCallsAreRun` | cmd/buckley/acp.go:773-815 | And nothing else is. |
| `AcpRules.ResponseExactly` | cmd/buckley/acp.go:778-811 | The response carries the tool's text iff the call may run, else the error that says why not; the status is completed iff it ran and succeeded. |
| `AcpRules.RunsExactly` | pkg/tool/filter.go:8-19 | A call may run iff its arguments are blank or JSON and its name is on the filter, white space aside, if there is one. |
| `AcpRules.ThoughtIffNew` | cmd/buckley/acp.go:864-871 | A thought is streamed iff there is a stream and it is not blank and not what was shown last. |
| `AcpRules.RoundNotBegun` | cmd/buckley/acp.go:625-628 | A cancelled round changes nothing but the outcome. |
| `AcpLoop.TranscriptStaysWellFormed` | cmd/buckley/acp.go:674-678 | Whatever happens, a paired stream stays paired; where no round was cut, a well-formed transcript stays so. |
| `AcpLoop.WellFormedIffUncut` | cmd/buckley/acp.go:674-678 | From a well-formed transcript, a run ends in one iff no round that the running loop reached was cancelled among its tool calls. |
| `AcpLoop.OwesIffCut` | cmd/buckley/acp.go:774-777 | A run leaves responses out iff such a round exists. |
| `AcpLoop.CancellationLeavesCallUnanswered` | cmd/buckley/acp.go:774-777 | A round of two calls, cancelled after the first, ends with a transcript that is not well formed. |
| `Transport.ReadFrames` | pkg/acp/transport.go:28-69 | What comes back for newline-free messages, whatever they end in. |
| `Transport.RoundTripIffFramable` | pkg/acp/transport.go:28-69 | Reading undoes writing iff every message is non-empty, newline-free and does not end in a carriage return. |
| `Transport.CarriageReturnIsDropped` | pkg/acp/transport.go:34-41 | A frame ending in a carriage return and a newline reads back as the message before them. |
| `Transport.StreamReadsBack` | pkg/acp/transport.go:52-69 | At every moment of every interleaving the stream reads back as the messages completed so far, in the order the mutex was taken; a frame half written is not seen. |
| `Transport.ConcurrentWritesReadBack` | pkg/acp/transport.go:52-69 | In every interleaving, once the mutex is free the stream reads back as the messages in the order the mutex was taken. |
| `CommitRefs.Match` | pkg/commitmsg/refs.go:18-26 | Whatever the matcher finds is a close keyword as a whole word, an optional colon, white space, a hash and all the digits after it. |
| `CommitRefs.MatchFinds` | pkg/commitmsg/refs.go:18-26 | Whatever has that form at a word start is found, as such. |
| `CommitRefs.KeywordsExactly` | pkg/commitmsg/refs.go:18-26 | The keywords are the nine GitHub honors, in any case, and no other word. |
| `CommitRefs.NeutralizedHasNoDirective` | pkg/commitmsg/refs.go:28-35 | The neutralized text has no close directive anywhere, seams included. |
| `CommitRefs.ClosesBecomesRefs` | pkg/commitmsg/refs.go:28-32 | The documented example. |
| `CommitRefs.NeutralizeFixpoints` | pkg/commitmsg/refs.go:28-35 | A text is unchanged iff it has no directive, so neutralizing is idempotent. |
| `CommitRefs.OnlyDirectivesChange` | pkg/commitmsg/refs.go:33-35 | Text and result cut into the same segments; each directive keeps its number, every other character is copied. |
| `CommitRefs.ReferencesKept` | pkg/commitmsg/refs.go:28-35 | The sequence of `#number` references is the same before and after. |
| `CommitRefs.FooterIsDirectiveFree` | pkg/commitmsg/refs.go:37-46 | The line has a close directive iff the issue text has; a bare number never does. |
| `CommitRefs.FooterCanClose` | pkg/commitmsg/refs.go:37-46 | The issue text `fix #1` gives a line with a close directive. |
| `ArtifactPaths.SegmentIsSafe` | cmd/buckley/doctor.go:1931-1955 | A cleaned segment is empty, or has safe characters only, is not `.` or `..` and has no dot or dash at its ends. |
| `ArtifactPaths.SegmentIdempotent` | cmd/buckley/doctor.go:1931-1955 | Cleaning twice is cleaning once. |
| `ArtifactPaths.GapBecomesOneDash` | cmd/buckley/doctor.go:1931-1955 | A run of unsafe characters, however long, becomes one dash; what stands around it is treated as if it stood alone. |
| `ArtifactPaths.NamedPathIsSafe` | cmd/buckley/doctor.go:1887-1907 | For every name: with an extension without a separator the path splits back into those elements, none empty, `.` or `..`; all are safe iff the extension is blank or safe. |
| `ArtifactPaths.NamedPathStaysInside` | cmd/buckley/doctor.go:1887-1907 | For every name and every extension the cleaned path has a `..` element iff walking the extension's pieces, from as many levels down as the name has elements, leaves the top. |
| `ArtifactPaths.ExtensionCanClimb` | cmd/buckley/doctor.go:1902-1906 | Such an extension exists: name `a` with `/../..` gives `..`. |
| `ArtifactPaths.BlankExtensionIsJson` | cmd/buckley/doctor.go:1902-1904 | Without an extension the path is the one with `.json`. |
| `ArtifactPaths.CandidatesDiffer` | cmd/buckley/doctor.go:1917-1927 | Different numbers give different spellings of a path. |
| `ArtifactPaths.CandidateKeepsExtension` | cmd/buckley/doctor.go:1917-1921 | A numbered spelling has a dash and the number before the extension, the last dot of the last element on, and keeps it. |
| `ArtifactPaths.TakenShrinks` | cmd/buckley/doctor.go:1917-1927 | The search ends: each round leaves fewer taken spellings ahead. |
| `ArtifactPaths.PathAllocator.Unique` | cmd/buckley/doctor.go:1909-1929 | The path returned was not in use; it is the path asked for or its first free numbered spelling; the map records both. |
| `ArtifactPaths.UniqueOrSame` | cmd/buckley/doctor.go:1909-1929 | Without a map the path comes back as it is; with one it is new and recorded. |
| `ArtifactPaths.UniqueAll` | cmd/buckley/doctor.go:1733-1743 | Over any sequence of calls sharing one map the paths are pairwise distinct spellings of those asked for. |
| `ToolPolicy.CleanContents` | cmd/buckley/main.go:1646-1661 | A clean list holds exactly the names listed, once each. |
| `ToolPolicy.CleanIsOrdered` | cmd/buckley/main.go:1646-1661 | A clean list is a subsequence of the trimmed input. |
| `ToolPolicy.CleanIdempotent` | cmd/buckley/main.go:1646-1661 | Cleaning twice is cleaning once. |
| `ToolPolicy.FilterContents` | cmd/buckley/main.go:1595-1681 | A filter lists, without repeats and in order, exactly the granted names that are not denied. |
| `ToolPolicy.FilterKeepsOrder` | cmd/buckley/main.go:1595-1681 | The filter is a subsequence of the list it comes from, as written or registered. |
| `ToolPolicy.TierGrantsNothing` | cmd/buckley/main.go:1618-1644 | A tier grants nothing iff it sets no limit, there is no registry, or every registered tool is above it or has a blank name. |
| `ToolPolicy.TierAdmitsExactly` | cmd/buckley/main.go:1618-1644 | `read_only` admits the registered tools of permission tier 0, `standard` those of tiers 0 and 1, any other tier none. |
| `ToolPolicy.UnrestrictedExactly` | cmd/buckley/main.go:1595-1616 | There is no restriction iff the tier is not `none`, no list has a non-blank name, and the tier sets no limit or one that no registered tool meets. |
| `ToolPolicy.ReadOnlyCanBeUnrestricted` | cmd/buckley/main.go:1608-1616 | A read-only spec over a registry of writers gets no restriction. |
| `ToolPolicy.Spec.Derive` | pkg/agentspec/subagent.go:36-87 | The profile is a new object with the merged fields, no subagents and no list in common with the parent, which is unchanged; an unknown name gives none. |
| `ToolPolicy.Spec.ProfileTwo` | pkg/agentspec/subagent.go:36-126 | The profiles of two subagents share no list with each other nor with the parent. |
| `ToolPolicy.DerivedNameExactly` | pkg/agentspec/subagent.go:50-50 | A profile's name is the parent's and the subagent's with one slash between. |
| `ToolPolicy.DerivedPromptExactly` | pkg/agentspec/subagent.go:77-79 | Instructions that are not blank are appended under their heading after a blank line; otherwise the prompt stays. |
| `ToolPolicy.DenyListsSurvive` | pkg/agentspec/subagent.go:36-87 | Every non-blank tool denied by parent or subagent is absent from the subagent's filter, which is then a restriction. |
| `Approval.WithinIsContainment` | pkg/approval/modes.go:296-323 | For cleaned absolute paths the string-prefix test is containment by elements, for every directory but the root. |
| `Approval.DeniedExactly` | pkg/approval/modes.go:146-184 | In every mode a request is denied iff a denied directory holds its path. |
| `Approval.DeniedRootDeniesNothing` | pkg/approval/modes.go:326-344 | With the root as the only denied directory no mode denies any path below it. |
| `Approval.WriteAllowedExactly` | pkg/approval/modes.go:186-200 | A write or delete is allowed iff no denied directory holds the path, and the mode is Yolo, or Safe or Auto with the path, by elements, in the workspace or a trusted directory. |
| `Approval.ReadAllowedExactly` | pkg/approval/modes.go:158-161 | Reads are allowed in every mode outside the denied directories. |
| `Approval.ShellAllowedExactly` | pkg/approval/modes.go:202-237 | Shell reads are allowed in Yolo and Auto, and in Safe if they look read-only; shell writes in Yolo, and in Auto if they target the workspace. |
| `Approval.NetworkAllowedExactly` | pkg/approval/modes.go:239-269 | Network access, direct or from the shell, is allowed in Yolo, and in Auto iff the context allows it. |
| `Approval.GitWriteAllowedExactly` | pkg/approval/modes.go:271-293 | Git writes are allowed in Yolo, in Safe iff they name none of the five remote commands, in Auto iff they are no forced push. |
| `Approval.OtherwiseAsked` | pkg/approval/modes.go:180-183 | Unknown operations are allowed in Yolo only; what is neither allowed nor denied is asked about. |
| `Approval.ModesWiden` | pkg/approval/modes.go:146-293 | A freer mode allows what a stricter one allows, except exactly for the git writes named below between Safe and Auto. |
| `Approval.StashPushLooksBoth` | pkg/approval/modes.go:419-437 | Such a git write exists. |
| `ChatCheck.CheckChoice` | pkg/chatcheck/runner.go:452-606 | The early-exit chain passes iff the conjunction of all checks holds, and only the last recorded check can have failed. |
| `ChatCheck.ContentIsJudgedFirst` | pkg/chatcheck/runner.go:452-461 | Content that is not blank is what is judged; the reasoning only otherwise. |
| `ChatCheck.Run` | pkg/chatcheck/runner.go:380-607 | No error iff passed iff every turn meets its conjunction; turns stop exactly at the first that does not; each turn is charged its own reply and the result the sum; exactly the non-blank prompts of the turns taken are sent, each as `FirstRequestsAt` says. |
| `ChatCheck.FirstRequestsAt` | pkg/chatcheck/runner.go:394-421 | Request k carries the preamble, all earlier user/assistant pairs in order and its own prompt. |
| `ChatCheck.PreambleExactly` | pkg/chatcheck/runner.go:396-398 | The trimmed system prompt opens every request unless it is blank. |
| `ChatCheck.NormalizeTwice` | pkg/chatcheck/runner.go:719-746 | Normalizing a scenario twice changes nothing more. |
| `ChatCheck.NormalizeKeeps` | pkg/chatcheck/runner.go:719-746 | What a scenario says is kept, trimmed; only what it leaves out gets a default. |
| `ChatCheck.FinalizeSuite` | pkg/chatcheck/runner.go:670-690 | Passed and failed counts add up to the results. |
| `ChatCheck.RunSuite` | pkg/chatcheck/runner.go:609-655 | Every scenario is run and counted once and charged what its own replies cost; usage is the total; no error iff the suite passed iff every turn of every scenario meets all its checks. |
| `BuckbotRuns.StepKeepsInv` | cmd/buckley/buckbot.go:75-182 | Every step of every handler keeps the ledger, the ownership of entries, the discipline of histories and the origin of seen revisions. |
| `BuckbotRuns.StepKeepsLedger` | cmd/buckley/buckbot.go:105-120 | Reserving and settling keep reserved equal to the open reservations and spending within its bound. |
| `BusSafety.StepShape` | pkg/bus/memory.go:42-60 | Each step raises a flag, closes a channel, delivers or adds at most once, moves the lock as it should, and a channel is closed only by the thread that raised its flag, under the write lock. |
| `BusSafety.CloseShape` | pkg/bus/memory.go:172-187 | Close does so for every subscription whose flag it wins. |
| `BusSafety.UnsubscribeShape` | pkg/bus/memory.go:207-225 | Unsubscribe closes only the channel whose flag it won; a second call does nothing. |
| `BusSafety.PublishShape` | pkg/bus/memory.go:32-63 | Publish and the sending part of Request send only under the read lock, to a subscription whose flag was seen down. |
| `BusSafety.SubscribeShape` | pkg/bus/memory.go:65-86 | Subscribe adds one open, unflagged subscription under a new identifier. |
| `BusSafety.NextKeepsInv` | pkg/bus/memory.go:94-153 | Every step of every operation, Request included, keeps: flag up iff closed or about to be closed by exactly one thread; a pending send has an open channel. |
| `TaskPool.StepKeepsPlaces` | pkg/bus/memory.go:257-309 | Every step keeps the channel, the inflight map, the workers and the outcomes in agreement with where each task was last put. |
| `TaskPool.NackFindsTask` | pkg/bus/memory.go:293-301 | A worker's Nack always finds its task inflight. |
| `AcpLoop.CallsAreAnswered` | cmd/buckley/acp.go:674-678 | The call message, its responses and the ones a cancellation left out form an answered exchange. |
| `AcpLoop.IncompleteIsNotAnswered` | cmd/buckley/acp.go:774-777 | A transcript that a response is still owed to is not well formed. |
| `Transport.StepKeepsWire` | pkg/acp/transport.go:52-69 | Each writer step keeps the stream equal to the framed messages up to what the mutex holder still owes. |
| `ChatCheck.AllPassedCount` | pkg/chatcheck/runner.go:670-690 | The passed count reaches the number of results iff every result passed. |
| `Buckbot.Service.constructor` | cmd/buckley/buckbot.go:63-73 | A new service has seen nothing, runs nothing and has reserved nothing. |
| `Buckbot.Service.Admit` | cmd/buckley/buckbot.go:79-95 | A revision is admitted iff it is neither seen nor current; the entry is then its handler's, the entry's former owner is the one cancelled, and a refusal changes nothing. |
| `Buckbot.Service.IsCurrentRevision` | cmd/buckley/buckbot.go:184-189 | True iff the pull request's entry is for this very revision. |
| `Buckbot.Service.ReserveReviewBudget` | cmd/buckley/buckbot.go:191-200 | A review budget is reserved iff spent, reserved and one more still fit the month; nothing else changes. |
| `Buckbot.Service.SettleReviewBudget` | cmd/buckley/buckbot.go:202-212 | One reservation is given back, clamped at zero, and a positive cost is charged. |
| `Buckbot.Service.MarkSeen` | cmd/buckley/buckbot.go:162-168 | A posted revision becomes seen only while it is current. |
| `Buckbot.Service.Release` | cmd/buckley/buckbot.go:96-103 | The deferred cleanup removes the entry iff it names this revision, whoever wrote it. |
| `Buckbot.CapIsStable` | cmd/buckley/buckbot.go:228-230 | Once the cap is reached, further doublings do not change the delay. |
| `TaskQueue.MemoryQueue.TrySend` | pkg/bus/memory.go:257-269 | A send appends to the pending channel iff there is room. |
| `TaskQueue.MemoryQueue.TryReceive` | pkg/bus/memory.go:271-284 | A receive takes the oldest pending task and leaves inflight alone. |
| `TaskQueue.MemoryQueue.Register` | pkg/bus/memory.go:276-279 | The second half of Pull records the task as inflight. |
| `TaskQueue.MemoryQueue.Ack` | pkg/bus/memory.go:286-291 | Ack forgets the inflight task and nothing else. |
| `TaskQueue.MemoryQueue.TakeBack` | pkg/bus/memory.go:293-301 | The locked half of Nack returns the inflight task, if any, and forgets it. |
| `AcpLoop.NormalizeIds` | cmd/buckley/acp.go:765-771 | Only empty identifiers are replaced, in place. |
| `AcpLoop.SendPhase` | cmd/buckley/acp.go:864-871 | A thought is streamed iff there is a stream and it says something new. |
| `AcpLoop.Respond` | cmd/buckley/acp.go:778-811 | The tool runs iff the arguments parse and the filter allows it; one response is recorded; the status is completed iff it ran and succeeded. |
| `AcpLoop.ExecuteToolCalls` | cmd/buckley/acp.go:773-815 | The calls before the first cancellation are dealt with in order, and the tools run are exactly those that parse and are allowed. |
| `AcpLoop.ToolTurn` | cmd/buckley/acp.go:674-678 | A reply with calls records them with identifiers filled in, then runs them. |
| `AcpLoop.TextTurn` | cmd/buckley/acp.go:643-671 | A reply in words is rejected, answered with one of two nudges, or accepted, recorded and returned. |
| `AcpLoop.OneRound` | cmd/buckley/acp.go:629-678 | One pass of the loop, with the tool downgrade. |
| `AcpLoop.RunLoop` | cmd/buckley/acp.go:606-680 | The loop over any stretch of model replies computes the run the results speak of. |
| `Transport.Reader.ReadLine` | pkg/acp/transport.go:28-35 | The reader advances past exactly the first line, or to the end if there is none. |
| `Transport.Reader.ReadMessage` | pkg/acp/transport.go:28-48 | The next non-empty line without its line ending; skipping empty lines ends. |
| `Transport.Writer.WriteMessage` | pkg/acp/transport.go:52-69 | One call appends one frame: the stream stays the framed list of what was sent. |
| `CommitRefs.IssueRefLine` | pkg/commitmsg/refs.go:40-46 | The line is the fixed prefix and the issue without its leading hashes. |
| `ArtifactPaths.SafeSegment` | cmd/buckley/doctor.go:1931-1955 | The loop with its dash flag computes the cleaned segment. |
| `ArtifactPaths.NamedArtifactPath` | cmd/buckley/doctor.go:1887-1907 | The path is the cleaned name's elements with the extension on the last, joined and then cleaned as `filepath.Join` does, for every extension. |
| `ToolPolicy.AppendUnique` | pkg/agentspec/runtime.go:217-243 | The two loops give the trimmed, non-empty first occurrences of both lists, in order. |
| `ToolPolicy.CleanToolNames` | cmd/buckley/main.go:1646-1661 | The same for one list. |
| `ToolPolicy.ToolsForTier` | cmd/buckley/main.go:1618-1644 | The registered tools up to the tier's permission, clean; nothing for tiers that do not restrict. |
| `ToolPolicy.SubtractToolNames` | cmd/buckley/main.go:1663-1681 | The clean list without the clean denied names, in order. |
| `ToolPolicy.ResolveToolFilter` | cmd/buckley/main.go:1595-1616 | The filter that results from explicit list, spec and registry. |
| `ToolPolicy.Spec.Clone` | pkg/agentspec/subagent.go:89-126 | A clone has the same fields, every list in new storage. |
| `ToolPolicy.Spec.Find` | pkg/agentspec/subagent.go:23-34 | The first subagent with that name, none for a blank name. |
| `ToolPolicy.MergeTools` | pkg/agentspec/subagent.go:58-72 | Tiers are overridden by non-blank ones, lists extended by non-empty ones. |
| `ToolPolicy.MergePolicy` | pkg/agentspec/subagent.go:128-142 | The policy fields likewise; rule packs are appended. |
| `ChatCheck.CheckLength` | pkg/chatcheck/runner.go:477-508 | The length checks, as a conjunction. |
| `ChatCheck.CheckContains` | pkg/chatcheck/runner.go:509-528 | All wanted texts occur, blank ones aside; stops at the first that does not. |
| `ChatCheck.CheckNotContains` | pkg/chatcheck/runner.go:529-548 | No forbidden text occurs. |
| `ChatCheck.CheckRegex` | pkg/chatcheck/runner.go:549-578 | All patterns compile and match. |
| `ChatCheck.JudgeReply` | pkg/chatcheck/runner.go:421-475 | An answered turn passes iff there is a choice that meets all checks; its usage is the response's, passed or not. |
| `ChatCheck.TakeTurn` | pkg/chatcheck/runner.go:400-606 | One turn is recorded, its usage added; the request and the new messages are as they should be. |
| `ChatCheck.RecordKeeps` | pkg/chatcheck/runner.go:657-668 | Recording a turn keeps usage the sum of the turns' usage. |
| `ChatCheck.Finalize` | pkg/chatcheck/runner.go:692-710 | Passed iff nothing failed and there are turns, all passed. |

## Left out

- Reviewing, posting, announcing and salvage files of the review bot: arbitrary answers of a step. Revision and pull request keys are tuples instead of formatted strings; money is exact (`real`). `handle` is a step machine at mutex granularity, not one sequential method, because other handlers act between its sections.
- Queue operations after the bus is closed, `WaitEmpty` and the worker count after `ScaleWorkers`. Task and subscription identifiers are new by assumption (a ULID, a counter).
- The bus's lists of subscriptions are values, spliced by a function; the handler goroutine of a subscription is reduced to taking messages out of its channel; the time limit of Request is a step that may happen at any moment.
- JSON itself and failed writes of the transport: a message is its encoding, and a write succeeds.
- Unicode case folding in the close-directive pattern and in lower-casing git commands: modelled for ASCII.
- Wording of phases, tool errors and updates of the agent loop; how a text is judged to announce an action (a parameter); uniqueness of tool call identifiers across turns; the request sent to the model.
- ArtifactPaths.NamedPathIsSafe: for extensions with a separator it says nothing; `NamedPathStaysInside` says when the path climbs out, not which characters it has. Callers pass `.json` and `.md`.
- Negative counts in the map of used artifact paths, which cannot arise.
- BuckbotRuns.LedgerIsExact: assumes a non-negative per-review budget; `LedgerExactIff` says what holds without it.
- Tags, descriptions, timeouts and error texts of chat checks; Go's regular expressions are sets of patterns that compile and of pairs that match.
- Spec fields a subagent profile does not rewrite (runtime, sandbox, terminals, labels), and the storage behind the lists of the subagent entries themselves, which are values.
- `filepath.Abs` and `filepath.Clean`, and the word lists that guess what a shell command does: parameters of the approval model.
- NATS, SQLite, gRPC and HTTP servers, the browser manager, the console, command-line parsing, rendering and configuration: wrappers, or easy members only.
