# Poll client: a Dafny model of the vote pipeline and its helpers

This project models the browser side of a real-time polling application,
written in TypeScript and React. It covers:

- the WebSocket provider, which keeps a registry of per-poll listeners,
  dispatches each broadcast to the listeners of its poll, sends votes, and
  reconnects with a linear back-off of at most five attempts;
- the per-poll real-time hook, which merges broadcast vote counts into the
  displayed options, works out which options changed so they can be
  highlighted, follows the viewer's own vote, and gates voting on
  authentication and connection;
- the components built on these: the poll card and the poll detail page,
  each with its re-entrancy flag and reset timer;
- the data hooks: a mock poll list with local voting, and the signed-in
  user's paginated list with its fetch guard, `hasMore` rule and delete
  guard;
- the "My Polls" page, whose optimistic delete is reverted on failure;
- the create-poll form: its option editor, validator and submit sequence;
- the display-name and initial helpers, and the stable descending sort and
  vote sum shared by the views.

Each source file becomes one Dafny module. State that the source updates in
place becomes a class, for example `WebSocketProvider`, `PollRealtimeHook`,
`MyPollsStore` and `CreatePollForm`. Its methods carry `modifies` clauses,
and their `ensures` clauses give the whole new state. Pure code becomes
functions and lemmas.

The environment is modelled as explicit events:

- socket open and close;
- an arriving frame, already parsed, or `None` when the frame is not valid
  JSON;
- a timer firing;
- an awaited HTTP call completing.

Callbacks are opaque identities (`CallbackId`). Wherever the source awaits
the network, the method returns the request it would send, and the response
is a parameter.

Where the written specification of the system and the code disagree, the
model follows the code:

- `handleVote` sends nothing and keeps the viewer's option when the socket
  is disconnected. There is no optimistic update in that case.
- The provider's teardown closes the socket captured at mount, which is
  always null, and cancels no timer. Teardown is therefore not modelled.
- The viewer-email match compares two possibly absent values. Two absent
  emails count as a match.
- The create form takes `createPoll` from `usePolls()`, which does not
  provide it. The outcome of the create call is therefore a parameter of
  `HandleSubmit`.
- `useMyPolls` imports `getMyPolls`, `createPollApi` and `deletePollApi`
  from `src/api/polls.ts`, which exports none of them. The model treats
  them as the HTTP calls their names describe: the request is returned as a
  value and the response is a parameter.
- The create form's option editor follows the code as written, including
  the id reuse recorded under "## Findings". The corrected editor, whose
  add picks an id above every id in use, is modelled beside it with its
  invariant proved.

## Model

| member | source | states |
|---|---|---|
| StableSort.SortDesc | src/utils/constants.ts:6-8 | the result is a permutation of the input, with non-increasing keys; for every key, the elements with that key keep their input order (the stable `Array.prototype.sort`) |
| StableSort.InsertNonIncreasing | src/utils/constants.ts:6-8 | inserting into a sorted sequence keeps it sorted |
| StableSort.InsertWithKey | src/utils/constants.ts:6-8 | insertion never reorders elements with equal keys |
| StableSort.SumSortDesc | src/utils/constants.ts:2-8 | sorting does not change the sum of the keys |
| StableSort.SortDescIdempotent | src/utils/constants.ts:6-8 | sorting a sorted sequence returns it unchanged |
| Constants.SortOptionsByVotes | src/utils/constants.ts:6-8 | `sortOptionsByVotes` returns a permutation of the options, ordered by `votesCount` from highest to lowest, with ties kept in input order |
| Constants.GetTotalVotes | src/utils/constants.ts:2-4 | the sum is 0 for no options and the option's count for one; `GetTotalVotesAppend` makes it additive |
| Constants.GetTotalVotesAppend | src/utils/constants.ts:2-4 | the total is 0 for no options and adds up over concatenation |
| Constants.SortPreservesTotal | src/utils/constants.ts:2-8 | the total of the sorted options equals the total of the options |
| Constants.SortIdempotent | src/utils/constants.ts:6-8 | sorting twice is sorting once |
| MockData.SortOptionsByVotes | src/utils/mockData.ts:203-205 | the same permutation, order and stability promise, on `votes` |
| MockData.GetTotalVotes | src/utils/mockData.ts:199-201 | the sum is 0 for no options and the option's count for one; `GetTotalVotesAppend` makes it additive |
| MockData.GetTotalVotesAppend | src/utils/mockData.ts:199-201 | the total of `votes` is 0 for no options and adds up over concatenation |
| MockData.SortPreservesTotal | src/utils/mockData.ts:199-205 | sorting does not change the total |
| MockData.SortIdempotent | src/utils/mockData.ts:203-205 | sorting twice is sorting once |
| PollsHook.InitialPolls | src/hooks/usePolls.ts:5 | the list starts as the fifteen mock polls, ids "1" to "15" |
| PollsHook.VoteOnOption | src/hooks/usePolls.ts:7-22 | same polls in the same order; in the poll with that id, each option with that id gains exactly one vote; ids, texts and all other counts are unchanged |
| PollsHook.VoteOnUnknownPollIsNoOp | src/hooks/usePolls.ts:7-22 | a vote for a poll id that is not listed changes nothing |
| PollsHook.VoteGrowsTotalByMatches | src/hooks/usePolls.ts:7-22 | the targeted poll's total grows by the number of options with that id, and every other poll's total stays the same |
| WebSocketContext.RemoveCallback | src/contexts/WebSocketContext.tsx:116 | `Set.delete` of an absent callback changes nothing; deleting a present one shortens the entry by exactly one |
| WebSocketContext.RemoveCallbackCut | src/contexts/WebSocketContext.tsx:116 | a present callback is cut out at its position, the callbacks before and after it keeping their order |
| WebSocketContext.RemoveCallbackMembers | src/contexts/WebSocketContext.tsx:116 | on a duplicate-free entry, exactly that callback leaves and the entry stays free of duplicates |
| WebSocketContext.RemoveCallbackKeepsOrder | src/contexts/WebSocketContext.tsx:116 | on a duplicate-free entry, `Set.delete` equals the order-keeping filter `Without`: the callbacks other than the removed one, in subscription order |
| WebSocketContext.Subscribed | src/contexts/WebSocketContext.tsx:106-110 | subscribing creates the poll's set if it is missing and adds the callback once; other polls are untouched; registry well-formedness is kept |
| WebSocketContext.Unsubscribed | src/contexts/WebSocketContext.tsx:113-121 | unsubscribing removes exactly that callback from that poll, keeping the other callbacks in order, and drops the poll's entry once it is empty; other polls are untouched |
| WebSocketContext.UnsubscribeKeepsOrder | src/contexts/WebSocketContext.tsx:113-121 | after an unsubscribe, the poll's listeners are the old ones without the removed callback, in subscription order |
| WebSocketContext.DispatchTargets | src/contexts/WebSocketContext.tsx:48-60 | an undecodable frame reaches nobody; a decoded one reaches exactly the callbacks registered under its poll id, each once, in subscription order |
| WebSocketContext.UnsubscribeTwiceIsOnce | src/contexts/WebSocketContext.tsx:113-121 | calling the unsubscribe closure twice has the effect of calling it once |
| WebSocketContext.SubscribeThenUnsubscribe | src/contexts/WebSocketContext.tsx:106-121 | subscribing a new callback and then unsubscribing it restores the registry exactly |
| WebSocketContext.NoListenerAfterLastUnsubscribe | src/contexts/WebSocketContext.tsx:113-121 | after the last listener of a poll leaves, the poll has no entry and its messages reach no one |
| WebSocketContext.CloseStep | src/contexts/WebSocketContext.tsx:63-74 | a close below five attempts raises the counter by one and schedules a reconnect after 2000 ms times the new counter; at five attempts it schedules nothing |
| WebSocketContext.BackoffSchedule | src/contexts/WebSocketContext.tsx:69-72 | a run of closes schedules min(closes, 5 - attempts) reconnects, and the i-th one waits 2000 times (attempts + i + 1) ms |
| WebSocketContext.BackoffIncreasingAndBounded | src/contexts/WebSocketContext.tsx:35-36 | the delays strictly increase, never exceed 10000 ms, and number at most five |
| WebSocketContext.BackoffFromFreshCounter | src/contexts/WebSocketContext.tsx:69-72 | from a fresh counter, the delays are 2000, 4000, 6000, 8000 and 10000 ms |
| WebSocketContext.WebSocketProvider.constructor | src/contexts/WebSocketContext.tsx:32-36 | no socket, not connected, an empty registry and a zero counter |
| WebSocketContext.WebSocketProvider.Connect | src/contexts/WebSocketContext.tsx:38-84 | a created socket is stored; when creation throws, the error is swallowed and nothing changes |
| WebSocketContext.WebSocketProvider.OnOpen | src/contexts/WebSocketContext.tsx:42-46 | the provider becomes connected and the counter resets to 0 |
| WebSocketContext.WebSocketProvider.OnClose | src/contexts/WebSocketContext.tsx:63-74 | the provider is disconnected with no socket; the counter and the delay follow `CloseStep`; a timer is pending exactly when a delay is returned |
| WebSocketContext.WebSocketProvider.ReconnectTimerFired | src/contexts/WebSocketContext.tsx:72 | a pending reconnect is consumed and `connect` runs again |
| WebSocketContext.WebSocketProvider.OnMessage | src/contexts/WebSocketContext.tsx:48-61 | the callbacks invoked are exactly the dispatch targets, with no repeats |
| WebSocketContext.WebSocketProvider.SendVote | src/contexts/WebSocketContext.tsx:96-104 | the vote is transmitted exactly when there is a socket and it is connected, and then it is appended to the sent frames |
| WebSocketContext.WebSocketProvider.Subscribe | src/contexts/WebSocketContext.tsx:106-122 | the registry becomes `Subscribed(...)`, and the returned unsubscriber names that poll and that callback |
| WebSocketContext.WebSocketProvider.Unsubscribe | src/contexts/WebSocketContext.tsx:113-121 | the registry becomes `Unsubscribed(...)` |
| PollRealtime.FindOption | src/hooks/usePollRealTime.tsx:57 | `find` returns nothing exactly when no snapshot option has the id, and otherwise the first one that does |
| PollRealtime.MergeOption | src/hooks/usePollRealTime.tsx:56-63 | a displayed option keeps its id and text; its count becomes that of the first broadcast option with its id, and it is unchanged when there is none |
| PollRealtime.MergeOptions | src/hooks/usePollRealTime.tsx:50-64 | with no prior options the snapshot is taken as is; otherwise each prior option keeps its id and text and takes the votes of the first snapshot option with its id, and keeps its own votes when there is none |
| PollRealtime.ChangedIds | src/hooks/usePollRealTime.tsx:66-72 | the loop collects exactly the ids of the options whose count differs from the option at the same index |
| PollRealtime.NothingChangedIffSameOptions | src/hooks/usePollRealTime.tsx:66-75 | no id is flagged exactly when the merge leaves the options as they were |
| PollRealtime.ChangedIdsComeFromSnapshot | src/hooks/usePollRealTime.tsx:56-72 | a flagged id belongs to a displayed option and appears in the broadcast |
| PollRealtime.TwoOptionBroadcast | src/hooks/usePollRealTime.tsx:50-80 | a two-option broadcast that changes one count updates that count and flags only that option |
| PollRealtime.NextUserOption | src/hooks/usePollRealTime.tsx:85-90 | the viewer's option follows a broadcast only when the broadcast's email equals the viewer's (both absent counts as equal) and it carries an option id |
| PollRealtime.ShouldSubscribe | src/hooks/usePollRealTime.tsx:39-41 | no subscription without a poll id or while signed out; otherwise one is made |
| PollRealtime.PollRealtimeHook.constructor | src/hooks/usePollRealTime.tsx:19-22 | the options and the viewer's option start from the initial values; nothing is highlighted |
| PollRealtime.PollRealtimeHook.InitialOptionsChanged | src/hooks/usePollRealTime.tsx:25-30 | new initial options replace the options only when they are not empty |
| PollRealtime.PollRealtimeHook.InitialUserOptionChanged | src/hooks/usePollRealTime.tsx:33-35 | the viewer's option is reset to the new initial value |
| PollRealtime.PollRealtimeHook.SubscribeEffect | src/hooks/usePollRealTime.tsx:38-46 | the hook subscribes only with a non-empty poll id while authenticated, and keeps the unsubscriber |
| PollRealtime.PollRealtimeHook.CleanupEffect | src/hooks/usePollRealTime.tsx:93-96 | the kept unsubscriber, if any, is applied to the registry and then forgotten |
| PollRealtime.PollRealtimeHook.OnMessage | src/hooks/usePollRealTime.tsx:46-91 | the options become the merge; when an id changed, the changed ids are highlighted and a clear timer is scheduled; the viewer's option follows `NextUserOption` |
| PollRealtime.PollRealtimeHook.HighlightTimerFired | src/hooks/usePollRealTime.tsx:77-79 | a clear timer empties the highlight set, whichever message scheduled it |
| PollRealtime.PollRealtimeHook.HandleVote | src/hooks/usePollRealTime.tsx:100-119 | when authenticated and connected, the vote is sent (if a socket exists) and the viewer's option becomes it; otherwise nothing is sent and nothing changes |
| PollItem.TopOptionIsLeader | src/components/PollItem.tsx:116 | a card row is marked top exactly when it is the first sorted row and some option has a vote; a top row has the most votes |
| PollItem.IsTopOption | src/components/PollItem.tsx:116 | only the first row, with a vote, is marked; on a list in non-increasing order it has the most votes |
| PollItem.WasUpdated | src/components/PollItem.tsx:117 | an option is highlighted exactly when its id is flagged, so nothing is once the flags are cleared |
| PollItem.PollItemView.constructor | src/components/PollItem.tsx:24-25 | the card starts neither voting nor with a clicked option |
| PollItem.PollItemView.SortedOptions | src/components/PollItem.tsx:34 | the card shows a permutation of the hook's options, by votes from highest to lowest, options with equal votes in the hook's order |
| PollItem.PollItemView.TotalVotes | src/components/PollItem.tsx:35-38 | the total over the sorted rows equals the total of the hook's options |
| PollItem.PollItemView.OnVoteClick | src/components/PollItem.tsx:40-54 | a click is accepted only when not already voting and connected; it then marks the option, forwards the vote to the hook and schedules the reset |
| PollItem.PollItemView.ResetTimerFired | src/components/PollItem.tsx:50-53 | the reset clears the voting flag and the clicked option |
| PollDetail.FindPoll | src/pages/PollDetail.tsx:15 | the page finds nothing exactly when no poll has the route id, and otherwise the first poll that does |
| PollDetail.TopOptionIsLeader | src/pages/PollDetail.tsx:84 | a row is marked top exactly when it is the first sorted row and some option has a vote; a top row has the most votes |
| PollDetail.IsTopOption | src/pages/PollDetail.tsx:84 | only the first row, with a vote, is marked; on a list in non-increasing order it has the most votes |
| PollDetail.PageTotalIsPollTotal | src/pages/PollDetail.tsx:40-41 | the total shown over the sorted options is the poll's total |
| PollDetail.PollDetailPage.constructor | src/pages/PollDetail.tsx:10-15 | the page starts from the mock polls, not voting |
| PollDetail.PollDetailPage.HandleVote | src/pages/PollDetail.tsx:17-22 | a vote is accepted only for an existing poll while not voting; it marks the option and schedules the delayed vote |
| PollDetail.PollDetailPage.VoteTimerFired | src/pages/PollDetail.tsx:24-28 | the delayed vote applies `voteOnOption` to the remembered poll and option, then clears the flags |
| MyPollsHook.NextPolls | src/hooks/useMyPolls.ts:34-36 | a reset page replaces the list; any other page is appended after the existing polls, which stay as they were |
| MyPollsHook.HasToken | src/hooks/useMyPolls.ts:29 | the `!token` test: an absent or empty token counts as none; any other text is a token |
| MyPollsHook.HasMoreAfter | src/hooks/useMyPolls.ts:38 | more pages exist unless the key is absent or empty or the page is empty |
| MyPollsHook.DeletePollRequest | src/hooks/useMyPolls.ts:85-100 | without a non-empty token the delete fails with "Not authenticated" and makes no call; otherwise it calls the API with that poll id and token |
| MyPollsHook.CreatePollOutcome | src/hooks/useMyPolls.ts:68-84 | success passes the API's message through; any failure becomes "Failed to create poll. Please try again." |
| MyPollsHook.VoteOnOption | src/hooks/useMyPolls.ts:103-118 | in the polls with that id, each option with that option id gains one `votesCount`; everything else is unchanged |
| MyPollsHook.VoteOnUnknownPollIsNoOp | src/hooks/useMyPolls.ts:103-118 | a vote for an unlisted poll changes nothing |
| MyPollsHook.VoteGrowsTotalByMatches | src/hooks/useMyPolls.ts:103-118 | the targeted poll's total grows by the number of matching options; every other poll's total stays the same |
| MyPollsHook.MyPollsStore.constructor | src/hooks/useMyPolls.ts:6-14 | the store starts empty, not loading, with no error or key, and with `hasMore` true |
| MyPollsHook.MyPollsStore.FetchPolls | src/hooks/useMyPolls.ts:17-33 | while a fetch is in flight nothing happens; otherwise the error is cleared; with no token no request goes out and the guard is released; with a token the request carries no key on a reset and the current key otherwise |
| MyPollsHook.MyPollsStore.PageArrived | src/hooks/useMyPolls.ts:34-45 | a page updates the list by `NextPolls`, takes the page's key, and sets `hasMore` to "key non-empty and page non-empty"; a failure sets "Failed to load polls" and leaves the list, key and `hasMore` as they were; the guard is released either way |
| MyPollsHook.MyPollsStore.LoadMore | src/hooks/useMyPolls.ts:51-54 | nothing happens when there is no more or a load is running; otherwise it is a non-reset fetch |
| MyPollsHook.MyPollsStore.RefreshPolls | src/hooks/useMyPolls.ts:57-60 | the key is forgotten and a reset fetch is made: unless the in-flight guard skips it, the error is cleared and a request sent with a token is in flight as a reset, so its page replaces the list; a skipped fetch changes neither error nor in-flight request |
| MyPollsHook.MyPollsStore.Vote | src/hooks/useMyPolls.ts:103-118 | the list becomes `VoteOnOption` of the old list |
| MyPollsPage.RemovePoll | src/pages/MyPolls.tsx:26 | the optimistic filter keeps exactly the polls with a different id, and removes as many polls as carry the id |
| MyPollsPage.RemovePollIsFilter | src/pages/MyPolls.tsx:26 | the filter keeps a single poll exactly when its id differs and distributes over concatenation, so the remaining polls keep their order and multiplicity |
| MyPollsPage.RevertRestoresPolls | src/pages/MyPolls.tsx:26-33 | when the id occurs once, removing the poll and appending it back restores the same polls (as a multiset: the poll moves to the end) |
| MyPollsPage.MyPollsView.constructor | src/pages/MyPolls.tsx:11-14 | nothing is being deleted, the dialog is closed, no poll is selected |
| MyPollsPage.MyPollsView.HandleDeleteClick | src/pages/MyPolls.tsx:16-19 | the poll is selected and the dialog opens |
| MyPollsPage.MyPollsView.HandleDeleteCancel | src/pages/MyPolls.tsx:41-44 | the dialog closes and the selection is cleared; the polls are untouched |
| MyPollsPage.MyPollsView.HandleDeleteConfirm | src/pages/MyPolls.tsx:21-39 | with no selection nothing happens; otherwise every poll with the selected id is removed, and the poll is appended again when the delete fails (no token or a failed call); at the end nothing is being deleted, the dialog is closed and the selection is cleared |
| CreatePoll.InitialOptions | src/pages/CreatePoll.tsx:13-16 | the editor starts with two empty options, ids 1 and 2 |
| CreatePoll.WithoutId | src/pages/CreatePoll.tsx:33 | the filter keeps exactly the options with a different id, and removes as many options as carry the id |
| CreatePoll.WithoutIdIsFilter | src/pages/CreatePoll.tsx:33 | the filter keeps a single option exactly when its id differs and distributes over concatenation, so the remaining options keep their order and multiplicity |
| CreatePoll.Added | src/pages/CreatePoll.tsx:22-28 | as written: below six options it appends an empty option with id length + 1, and otherwise changes nothing; the length never passes six |
| CreatePoll.AddedFresh | src/pages/CreatePoll.tsx:22-28 | corrected: below six options it appends an empty option whose id differs from every id in use |
| CreatePoll.Removed | src/pages/CreatePoll.tsx:30-35 | at two options or fewer nothing changes; otherwise every option with that id is removed |
| CreatePoll.Updated | src/pages/CreatePoll.tsx:37-41 | every option with that id gets the new text; ids, order and the other texts stay |
| CreatePoll.EditsAsWrittenLeaveOneOption | src/pages/CreatePoll.tsx:22-35 | add, remove 1, add gives ids 2, 3, 3; then removing 3 leaves a single option |
| CreatePoll.WithoutIdDistinct | src/pages/CreatePoll.tsx:33 | with distinct ids, the filter removes at most one option and keeps the ids distinct |
| CreatePoll.EditKeepsInvariant | src/pages/CreatePoll.tsx:22-41 | each corrected edit keeps two to six options with distinct ids |
| CreatePoll.CorrectedEditsKeepInvariant | src/pages/CreatePoll.tsx:22-41 | any sequence of corrected edits keeps two to six options with distinct ids |
| CreatePoll.InitialOptionsKeepInvariant | src/pages/CreatePoll.tsx:13-41 | the initial options meet the invariant the editor intends (two to six options, distinct ids), and so does every state reached from them with the corrected add; the code as written breaks it, as the Findings row shows |
| CreatePoll.Trim | src/pages/CreatePoll.tsx:47 | `trim()` is empty exactly when the text is all ECMAScript whitespace; otherwise it neither starts nor ends with whitespace |
| CreatePoll.TrimStartIsSuffix | src/pages/CreatePoll.tsx:47 | stripping the front leaves a suffix of the text, and only whitespace was removed |
| CreatePoll.TrimEndIsPrefix | src/pages/CreatePoll.tsx:47 | stripping the back leaves a prefix of the text, and only whitespace was removed |
| CreatePoll.TrimIsInfix | src/pages/CreatePoll.tsx:47 | `trim()` is a slice of the text with only whitespace before and after it, so the characters in between are kept unchanged |
| CreatePoll.TrimIdempotent | src/pages/CreatePoll.tsx:47 | trimming twice is trimming once |
| CreatePoll.NonBlankMembers | src/pages/CreatePoll.tsx:52 | the filter keeps exactly the options whose trimmed text is non-empty |
| CreatePoll.NonBlank | src/pages/CreatePoll.tsx:52 | the options kept are never more than the options given; `NonBlankMembers` states which they are |
| CreatePoll.Normalized | src/pages/CreatePoll.tsx:58-60 | each compared text is the trimmed, lower-cased option text |
| CreatePoll.ToLower | src/pages/CreatePoll.tsx:59 | lower-casing keeps the length |
| CreatePoll.ToLowerLeavesNoCapital | src/pages/CreatePoll.tsx:59 | no ASCII capital survives lower-casing, and every other character is kept |
| CreatePoll.ElementsSize | src/pages/CreatePoll.tsx:61 | a set built from texts is never larger than the texts, and is as large exactly when no text repeats |
| CreatePoll.HasDuplicatesIff | src/pages/CreatePoll.tsx:61 | the size test reports duplicates exactly when two positions hold the same text |
| CreatePoll.ErrorsFor | src/pages/CreatePoll.tsx:44-64 | with the checks run in source order, the options message is the duplicate message whenever duplicates exist |
| CreatePoll.FormErrorsRecorded | src/pages/CreatePoll.tsx:43-64 | a question error exactly when the question is blank; an options error exactly when fewer than two options are non-blank or the normalised texts repeat, with the duplicate message winning; only these two keys |
| CreatePoll.AcceptedFormHasTwoDistinctOptions | src/pages/CreatePoll.tsx:43-67 | a form without errors has a question and two non-blank options that differ after normalising |
| CreatePoll.OptionTexts | src/pages/CreatePoll.tsx:78 | the payload lists every option's raw text in order, blank ones included |
| CreatePoll.SubmitErrorMessage | src/pages/CreatePoll.tsx:89 | the shown error is the error's message, or "Failed to create poll." when that is empty; it is never empty |
| CreatePoll.CreatePollForm.constructor | src/pages/CreatePoll.tsx:12-20 | the form starts empty, with the two initial options and no messages |
| CreatePoll.CreatePollForm.SetQuestion | src/pages/CreatePoll.tsx:150 | the question becomes the typed text |
| CreatePoll.CreatePollForm.AddOption | src/pages/CreatePoll.tsx:22-28 | as written: the options become `Added` of the old ones (below six, an empty option with id length + 1 is appended), and there are never more than six |
| CreatePoll.AsWrittenEditsStayBounded | src/pages/CreatePoll.tsx:22-41 | any sequence of edits as written keeps at most six options, the bound the form class keeps |
| CreatePoll.CreatePollForm.RemoveOption | src/pages/CreatePoll.tsx:30-35 | the options become `Removed` of the old ones: above two, every option with the id goes, even when the id is shared; never more than six |
| CreatePoll.CreatePollForm.UpdateOption | src/pages/CreatePoll.tsx:37-41 | the options become `Updated` of the old ones, for any list of options, shared ids included; never more than six |
| CreatePoll.CreatePollForm.ValidateForm | src/pages/CreatePoll.tsx:43-68 | the stored errors are `FormErrors` of the question and options, and the form is valid exactly when there are none |
| CreatePoll.CreatePollForm.Submit | src/pages/CreatePoll.tsx:75-93 | after validation: the payload holds the question, the raw option texts and the token; success shows "Poll created successfully!" and schedules the redirect; failure shows `SubmitErrorMessage`; it ends not submitting |
| CreatePoll.CreatePollForm.HandleSubmit | src/pages/CreatePoll.tsx:70-94 | an invalid form sends nothing; a valid one sends the question, the raw option texts and the token; success shows "Poll created successfully!" and schedules the redirect; failure shows `SubmitErrorMessage`; it ends not submitting |
| Auth.BeforeAt | src/hooks/useAuth.ts:9 | `split('@')[0]` is the longest prefix without an '@': the text ends there or an '@' follows |
| Auth.GetUserName | src/hooks/useAuth.ts:6-12 | a non-empty profile name is returned as is; otherwise a non-empty email gives its part before the first '@'; otherwise "Anonymous" |
| Auth.GetUserInitial | src/hooks/useAuth.ts:14-17 | at most one character: the upper-cased first character of the name, and "" exactly for an empty name |
| Auth.ToUpper | src/hooks/useAuth.ts:16 | an ASCII lower-case letter becomes the matching capital, every other character is kept, and no lower-case ASCII letter remains |
| Auth.DerivedNameHasNoAt | src/hooks/useAuth.ts:8-11 | without a profile name, the displayed name never contains '@' |
| Auth.InitialEmptyIff | src/hooks/useAuth.ts:6-17 | the initial is empty exactly when there is no profile name and the email starts with '@' |

## Left out

- Socket and HTTP I/O are not modelled: constructing a `WebSocket`, JSON encoding and decoding, and the axios calls. A frame arrives already parsed, or as `None` when it is not valid JSON. A request is returned as a value. A response is a parameter.
- Timers are not modelled. Each `setTimeout` becomes a "timer fired" method. Timer delays (600, 400, 1000 and 1200 ms) are not represented, and pending timers are not ordered.
- Teardown is not modelled. The provider's effect cleanup closes the socket captured at mount, which is always null, and cancels nothing.
- Percentages are not modelled. `Math.round((v / total) * 100)` is floating point and only displayed.
- Broadcasts without `options` are not modelled. `data.options` is always a sequence here. In the source, a missing field would throw inside the React state updater.
- React scheduling is not modelled: batching, stale closures, and the one-render lag between `loading` and `loadingRef`. `MyPollsStore.Valid` ties `loading` to the guard.
- The awaited `deletePoll` and `getMyPolls` calls each become one step. No other event can interleave with them.
- `voteOnOption`'s catch branch in `useMyPolls` is not modelled. It re-fetches, but nothing inside that `try` can throw.
- CreatePoll.CreatePollForm.HandleSubmit: the outcome of the create call is a parameter, because the page takes `createPoll` from `usePolls()`, which does not provide it. The engine-specific message of the resulting `TypeError` is not modelled.
- CreatePoll.ToLower: only ASCII letters are lower-cased. Other Unicode case mappings are not modelled.
- Auth.GetUserInitial: `charAt(0)` takes one UTF-16 code unit, while a Dafny string is a sequence of whole characters. For a name starting outside the Basic Multilingual Plane, such as an emoji, the source gives a lone surrogate and the model gives the whole character.
- PollRealtime.NextUserOption: JSON `null` is not told apart from an absent field. In the source a frame with `"email": null` does not match a viewer without an email (`null === undefined` is false), but here it does whenever the parser maps `null` to `None`. Likewise `"optionId": null` sets the viewer's option to `null` in the source, which `Option<int>` cannot express.
- Auth.ToUpper: only ASCII letters are upper-cased. Mappings that change length, such as 'ß' to "SS", are not modelled.
- Vote counts are unbounded integers. JavaScript numbers lose precision above 2^53, which is not modelled.
- OIDC sign-in and sign-out, routing, environment variables and all presentational components are not modelled.

## Findings

| source | as written | input that shows it | evidently intended | confidence | as-written member | corrected member |
|---|---|---|---|---|---|---|
| src/pages/CreatePoll.tsx:22-35 | `addOption` uses the current length plus one as the new id, and `removeOption` filters out every option with the given id | from the initial options: add, remove id 1, add (ids 2, 3, 3), then remove id 3 | new ids are never in use, so that removing one option keeps at least two, as the `length > 2` guard intends | not executed | CreatePoll.EditsAsWrittenLeaveOneOption | CreatePoll.CorrectedEditsKeepInvariant |
