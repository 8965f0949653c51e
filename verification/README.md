# Verified model of the mcp-authkit-go signal protocol

mcp-authkit-go lets a tool call of an MCP server block until its user has finished something
elsewhere: an OAuth authorization (section 4.1 of RFC 6749) or a credentials form. The call
creates a pending entry under a random state, asks the user to open a URL and waits; an HTTP
callback or form submission, possibly in another process, pops the entry, stores what it
obtained under the subject of the call, and signals. This project models that protocol, its
three storage backends and the token rules around it, and proves what they guarantee over
every run.

## Modules

- `Values`: Go's `any` and what a trip through JSON does to it.
- `Signals`: the signal/wait half of the memory backend as a concurrent object. One step is one
  lock region or one channel operation; `doneEntry` objects keep their identity after they
  leave the map. `MemoryStore` is the same store as a class over the heap; its `Goroutines` run
  any number of waits and signals on it and are proved to make exactly the runs of `Signals`.
- `Flows`: tool calls, callbacks and submissions as threads over a shared pending store and one
  token store per provider. Every step leaves an event in a log with the positions of its
  causes. `FlowInvariant` proves the invariant step by step, `FlowTheorems` draws the
  guarantees from it: nothing happens that should not. `FlowOutcomes` proves the other half, that
  what should happen does: from any world, in each branch of a call or request, its steps are
  open and lead to the outcome of the source, up to whole authorizations.
- `Tokens`: token entries, the serve / refresh / re-authorise decision, refresh chains
  (section 6 of RFC 6749).
- `Credentials`: the credentials form.
- `Encoding`, `Keys`, `FileStore`, `RedisStore`, `Polling`: the encrypted record format, key and
  path builders, and the two polling backends. `SampleCodec` shows that the laws asked of the
  encoding can be met.
- `Backends`: memory, file and Redis against one timed map.

JSON, AES-GCM and SHA-256 are function-valued parameters with the laws a proof needs: JSON
returns representable values with every number as a float, an opened seal gives the sealed text,
a hash is 64 characters long and keeps the keys in use apart. `generateID` never repeats an
identifier. Time is a real number and clock readings, nonces, code-exchange and refresh replies,
elicitation answers and store errors are inputs, so every statement holds for all of them.

## What turned out not to hold

- With two waiters on one key the memory backend can lose a wake-up
  (`Signals.TwoWaitersCanLoseAWakeUp`, and `Signals.TwoWaitersCanLoseAResult` while the first
  receiver has not returned yet). A SetResult wakes a blocked waiter if and only if nobody has
  received from the waiter's entry before (`Signals.WokenIffNotOutrun`); a waiter that was outrun
  never receives again (`Signals.OutrunWaitersNeverReceive`). With one waiter per key none is
  outrun.
- A credentials entry does not outlive the wait for it: its lifetime has no slack, so as soon as
  the prompt takes any time a submission can come before the deadline and be refused
  (`FlowTheorems.FormWindowFallsShort`). Every in-time submission or callback is accepted if and
  only if the answering time and the cut-off fraction of the timeout fit in the slack
  (`FlowTheorems.InTimePopsSucceedIff`).
- A success signal does not by itself mean that the caller is given a token. With a shared
  pending store a callback of another provider can answer for the state
  (`FlowTheorems.ForeignCallbackLeavesNothingToRead`), and even the call's own provider can store
  and announce a token that is too close to its expiry to be served
  (`FlowTheorems.ShortLivedTokenIsNotServed`). The re-read finds the announced entry or a newer
  one if and only if some write of the slot since then was not followed by a deletion
  (`FlowTheorems.SignalledCallFindsItsEntry`); what the call makes of an untouched entry, and
  that it is given a token if and only if the response's access_token is non-empty text and
  passes the expiry check, is `FlowTheorems.SignalledCallReads`.
- A Redis wait that loses the race between EXISTS and its pop returns nil before its deadline;
  exactly when is part of `RedisStore.RedisWaitReturnsOnTimeResult`.
- The backends differ on an unconsumed second result, on expired results and in the rest of
  the second in which an entry expires; `Backends` gives the exact conditions.
- The comment at store/redis.go:134-139 explains the pop by pipelining alone; the code uses a
  transaction pipeline, and the model takes its GET and DEL as one step.

## Model

| member | source | states |
|---|---|---|
| `Signals.SignallingInvariant` | store/memory.go:113-156 | after every interleaving no SetResult blocks on its send under the mutex, each doneEntry has carried at most one message, the delete after a receive removes the very entry received from, and an entry outside the map holds no message |
| `Signals.AcceptedResultsAreConserved` | store/memory.go:113-156 | a result accepted at any point of a run is at every later point either buffered in a registered entry or delivered to exactly one waiter, never both |
| `Signals.DroppedIffUnconsumed` | store/memory.go:116-128 | a SetResult is dropped if and only if an earlier result is still buffered or its receiver has not yet deleted the entry; otherwise it is buffered under its key |
| `Signals.WokenIffNotOutrun` | store/memory.go:113-150 | in every run a SetResult leaves a blocked waiter on its key able to receive if and only if no waiter has received from that waiter's entry before |
| `Signals.OutrunWaitersNeverReceive` | store/memory.go:133-156 | once another waiter has received from its entry, a blocked waiter receives nothing in any continuation: it stays blocked, times out or is cancelled |
| `Signals.StaleIffReceiverReturned` | store/memory.go:134-150 | a blocked waiter no longer holds the registered entry if and only if another waiter took that entry's result and returned with it |
| `Signals.LaterWaitSeesBufferedResult` | store/memory.go:133-151 | a buffered result, whoever gave up on it before, is received by the next wait on its key |
| `Signals.NoLostWakeUp` | store/memory.go:113-156 | with one waiter at a time per key, after any SetResult during the wait the waiter can receive for as long as it goes on waiting, whatever the run does |
| `Signals.TwoWaitersCanLoseAWakeUp` | store/memory.go:133-156 | with two waiters the second can stay blocked while a result for its key is buffered |
| `Signals.TwoWaitersCanLoseAResult` | store/memory.go:124-150 | with two waiters a second result can be dropped while the second waiter is blocked on the registered entry |
| `Signals.SetResultFillsSlot` | store/memory.go:113-130 | seen as one slot per key, SetResult never blocks and fills the slot or changes nothing |
| `Signals.ReceiveEmptiesSlot` | store/memory.go:145-151 | a receive empties exactly the slot of the waiter's key and yields what it held |
| `Signals.OtherStepsKeepSlots` | store/memory.go:134-155 | joining, timing out, cancelling and the delete after a receive lose no result |
| `MemoryStore.CloneMap` | store/memory.go:158-167 | the copying loop yields an equal map, nil for nil |
| `MemoryStore.MemoryPendingStore.Create` | store/memory.go:81-86 | the entry expires ttl seconds later and no waiting signal is touched |
| `MemoryStore.MemoryPendingStore.Get` | store/memory.go:89-98 | the metadata of an unexpired entry; an expired one is dropped |
| `MemoryStore.MemoryPendingStore.Pop` | store/memory.go:101-110 | the metadata of an unexpired entry; the key is gone in any case |
| `MemoryStore.MemoryPendingStore.Join` | store/memory.go:134-140 | on the heap, the registration step of `Signals` |
| `MemoryStore.MemoryPendingStore.SetResult` | store/memory.go:113-130 | on the heap, the SetResult step of `Signals`; its send always finds room in the channel |
| `MemoryStore.MemoryPendingStore.NeverBlocks` | store/memory.go:124-128 | in every valid heap state the send under the mutex finds room |
| `MemoryStore.MemoryPendingStore.Receive` | store/memory.go:145-146 | on the heap, the receive step of `Signals`, whichever entry the waiter holds |
| `MemoryStore.MemoryPendingStore.Forget` | store/memory.go:147-149 | on the heap, the delete step of `Signals` |
| `MemoryStore.MemoryPendingStore.WaitForResult` | store/memory.go:133-156 | a wait that nobody disturbs returns and consumes a buffered result, or nothing |
| `MemoryStore.Goroutines.SetResult` | store/memory.go:113-130 | among any number of waits in progress on the heap, a SetResult extends the run of `Signals` that the heap stands for by its Set |
| `MemoryStore.Goroutines.Enter` | store/memory.go:134-140 | likewise a call that registers and enters its select, by its Join |
| `MemoryStore.Goroutines.Take` | store/memory.go:145-146 | likewise the receive arm, from the entry that the call joined even if it has left the map |
| `MemoryStore.Goroutines.GiveUp` | store/memory.go:152-155 | likewise the timer and context arms, at any time |
| `MemoryStore.Goroutines.Finish` | store/memory.go:147-151 | likewise the delete after a receive and the return of what was received |
| `FlowInvariant.RunKeepsInv` | oauthprovider/oauthprovider.go:252-439 | the invariant over log, threads, stores and sessions is kept by every action of calls, callbacks, submissions and the environment, so by every run |
| `FlowTheorems.StoredTokensHaveProvenance` | oauthprovider/oauthprovider.go:356-436 | every entry in a token store traces back, through refreshes of earlier entries of the same slot, to a code exchange or form on a state that a call of the same subject had opened, or to an initial entry |
| `FlowTheorems.HandlersSeeTheirOwnGrant` | oauthprovider/oauthprovider.go:252-289 | whenever a wrapped handler runs it is given a token or credentials with such a lineage for its own caller; that a good entry does reach the handler is `FlowOutcomes.StoredEntryIsServed` and `FlowOutcomes.WokenCallIsServed` |
| `FlowTheorems.ServedTokensAreFresh` | oauthprovider/oauthprovider.go:356-391 | in every run the token a handler is given is the access token of the response it was stored for, and had more than 29 real seconds of expires_in left when the call resolved it, unless the same call had just refreshed it |
| `FlowTheorems.OneWinnerPerState` | oauthprovider/oauthprovider.go:415-436 | in every run a state has at most one successful pop, one code exchange and one saved entry, over all callbacks, duplicates and declines |
| `FlowTheorems.NothingAfterADecline` | oauthprovider/oauthprovider.go:340-343 | an exchange or save comes after its state's only successful pop, by the thread that won it; after a winning decline there is none; that a declined prompt pops is `FlowOutcomes.DeclinedCallCanOnlyPop`, and what follows for its state `FlowOutcomes.DeclinedStateIsNotSpent` |
| `FlowTheorems.StoredBeforeSignalled` | oauthprovider/oauthprovider.go:415-436 | a received success signal implies that this state was won for the waiter's own subject and an entry for this subject stored earlier; any other received signal is an error; which requests do signal is `FlowOutcomes.ErrorRedirectSignals`, `FlowOutcomes.FailedExchangeSignals` and `FlowOutcomes.CallbackStoresAndSignals` |
| `FlowTheorems.SignalledCallFindsItsEntry` | oauthprovider/oauthprovider.go:345-353 | after a success signal the re-read finds the announced entry or a newer one if and only if some write of the slot since then was not followed by a deletion; so in particular with the call's own provider and no deletion |
| `FlowTheorems.SignalledCallReads` | oauthprovider/oauthprovider.go:353-376 | what the re-read of an untouched announced entry yields: the saved credentials, or a token if and only if the response's access_token is non-empty text and passes the expiry check, else a refresh if one is possible, else nothing |
| `FlowTheorems.ForeignCallbackLeavesNothingToRead` | store/factory.go:56-88 | without the same-provider condition it does not: a run in which another provider's callback answers |
| `FlowTheorems.ShortLivedTokenIsNotServed` | oauthprovider/oauthprovider.go:365-376 | a run in which the call's own provider stores and announces a short-lived token and the call comes away with nothing |
| `FlowTheorems.SessionsAreTheBlockedCalls` | oauthprovider/oauthprovider.go:322-353 | the sessions map is at all times exactly the blocking calls between registration and return, over error, decline, timeout, cancel and success exits |
| `FlowTheorems.FailFastCallsNeverBlock` | oauthprovider/oauthprovider.go:272-274 | a fail-fast call never registers a session, prompts or waits |
| `FlowTheorems.SavedCredentialsAreWellFormed` | credentialsprovider/credentialsprovider.go:276-319 | every credentials map saved in a run has exactly the declared names with no required value blank; that every complete form is saved, with the posted values, is `FlowOutcomes.SubmissionSavesAndSignals` |
| `FlowTheorems.RejectedSubmissionChangesNothing` | credentialsprovider/credentialsprovider.go:287-307 | a rejected submission changes no credentials and no signal, and in every continuation of the run its thread has left nothing in the log but its pop: it stores and signals nothing, before or after |
| `FlowTheorems.PopsCloseTheirState` | credentialsprovider/credentialsprovider.go:284-291 | in every run a pop uses up its state, for a winning or rejected request and for a decline |
| `FlowTheorems.ClosedStatesStayClosed` | oauthprovider/oauthprovider.go:340-343 | a created state that is no longer pending is never pending again in any continuation, and nobody wins it any more |
| `FlowTheorems.WindowCoveredIff` | oauthprovider/oauthprovider.go:319-345 | the pending entry outlives the wait if and only if the answering time plus the fraction cut off by int fits in the slack |
| `FlowTheorems.WaitingStateIsPoppableIff` | oauthprovider/oauthprovider.go:415-419 | in every run, while a call waits and nobody has won its state, a pop succeeds if and only if the entry's lifetime from its creation has not run out |
| `FlowTheorems.InTimePopsSucceedIff` | oauthprovider/oauthprovider.go:415-419 | from any moment of a wait in a run, a pop at every later moment up to the deadline is accepted if and only if answering time and cut-off fraction fit in the slack |
| `FlowTheorems.OAuthWindowHolds` | oauthprovider/oauthprovider.go:319-345 | 59 seconds to answer are always covered, for every timeout |
| `FlowTheorems.FormWindowFallsShort` | credentialsprovider/credentialsprovider.go:218-244 | for every answering time above zero there is a run in which a submission comes before the wait's deadline, nobody before it, and is refused |
| `FlowOutcomes.FirstReadDecides` | oauthprovider/oauthprovider.go:264-276 | the first read of a call goes on to the handler, to a refresh, or to a new state, each if and only if the stored entry is good for it, and changes no store |
| `FlowOutcomes.StoredEntryIsServed` | oauthprovider/oauthprovider.go:264-270 | a call with stored credentials, or a non-empty access token not about to expire, runs its handler with exactly that, and no store or session changes |
| `FlowOutcomes.RefreshedTokenIsServed` | oauthprovider/oauthprovider.go:373-390 | a call whose token is about to expire and can be refreshed stores an entry that keeps the response and the next refresh token, and runs its handler with the new access token |
| `FlowOutcomes.TokenlessRefreshAsks` | oauthprovider/oauthprovider.go:382-390 | a refresh response without a usable access token is stored, and the call goes on to ask the user |
| `FlowOutcomes.FailedRefreshDeletes` | oauthprovider/oauthprovider.go:377-381 | a failed refresh deletes the entry, and the call goes on to ask the user, also if the deletion fails |
| `FlowOutcomes.InvalidatedTokenIsGone` | oauthprovider/oauthprovider.go:229-233 | after an invalidation a call finds nothing to serve or refresh, and nothing else has changed |
| `FlowOutcomes.StoreErrorReturns` | oauthprovider/oauthprovider.go:264-433 | a store error ends a call or request without touching a store; a registered call returns through the clean-up with nothing |
| `FlowOutcomes.UnservedCallPrompts` | oauthprovider/oauthprovider.go:272-345 | a call with nothing to serve opens a state for its own subject with the lifetime of its provider; a fail-fast call is then done, a blocking one registers, prompts and waits |
| `FlowOutcomes.WaitEndsIff` | oauthprovider/oauthprovider.go:345-351 | a waiting call can go on by its signal if and only if there is one, by its timeout if and only if the deadline has come, by cancellation, and in no other way |
| `FlowOutcomes.UnansweredCallReturns` | oauthprovider/oauthprovider.go:331-351 | after a broken prompt, a timeout or a cancelled wait the call returns with nothing, its session gone, its state still open and no store changed |
| `FlowOutcomes.DeclinedCallPops` | credentialsprovider/credentialsprovider.go:239-242 | a declined prompt pops its state and the call returns with nothing |
| `FlowOutcomes.DeclinedCallCanOnlyPop` | oauthprovider/oauthprovider.go:340-343 | in every run, however long others take after a decline, the only steps open to the call are the pop of its state and a store error |
| `FlowOutcomes.DeclinedStateIsNotSpent` | oauthprovider/oauthprovider.go:340-343 | in every run, once the pop of a declined call has run its state is never pending again, and it is exchanged or saved only if a callback had won it before that pop |
| `FlowOutcomes.WokenCallIsServed` | oauthprovider/oauthprovider.go:345-353 | a signalled call takes the signal, reads its entry again and, if that is good, leaves and runs its handler with it |
| `FlowOutcomes.WokenCallServesRefreshed` | oauthprovider/oauthprovider.go:353-390 | a signalled call refreshes an expiring token like any other and runs its handler with the new one |
| `FlowOutcomes.WokenCallDropsStale` | oauthprovider/oauthprovider.go:377-381 | a signalled call whose refresh fails deletes the entry and returns with nothing |
| `FlowOutcomes.WokenCallReturnsEmpty` | oauthprovider/oauthprovider.go:276-285 | a signalled call that finds nothing good or refreshable returns with nothing |
| `FlowOutcomes.OneKindOfStep` | oauthprovider/oauthprovider.go:314-353 | a call or request never has a choice: apart from store errors, all steps open to it are of one kind |
| `FlowOutcomes.ErrorRedirectSignals` | oauthprovider/oauthprovider.go:400-407 | an error redirect with a state puts an oauth_error signal for it, whatever code it carries, and touches no other store |
| `FlowOutcomes.MalformedRequestEnds` | oauthprovider/oauthprovider.go:400-413 | a redirect without a state, or with neither code nor error, and a post without a token change nothing |
| `FlowOutcomes.UnknownStateIsRefused` | oauthprovider/oauthprovider.go:415-419 | a request for an unknown, used or expired state exchanges, saves and signals nothing |
| `FlowOutcomes.CallbackStoresAndSignals` | oauthprovider/oauthprovider.go:415-436 | a callback on a pending state stores for the state's subject an entry that keeps the token response, uses up the state and signals the success with that subject |
| `FlowOutcomes.FailedExchangeSignals` | oauthprovider/oauthprovider.go:422-427 | a callback whose exchange fails uses up the state, stores nothing and signals exchange_failed |
| `FlowOutcomes.SubmissionIsAcceptedIff` | credentialsprovider/credentialsprovider.go:287-307 | a submission on a pending state goes on to save if and only if its form parses and every required field has a first value with something other than white space; otherwise it is done with the state used up |
| `FlowOutcomes.SubmissionSavesAndSignals` | credentialsprovider/credentialsprovider.go:299-315 | a complete submission saves for the state's subject exactly the declared names with the first posted values, "" for absent ones, uses up the state and signals the success |
| `FlowOutcomes.AuthorizationCompletes` | oauthprovider/oauthprovider.go:252-439 | from any world: a blocking call with nothing stored, the callback of its user and the resumed call end with the handler running on the token of the exchange |
| `FlowOutcomes.CredentialsFlowCompletes` | credentialsprovider/credentialsprovider.go:158-319 | the same for a form: the handler runs on the posted values |
| `Tokens.ToFloatReadsNumbers` | oauthprovider/oauthprovider.go:456-467 | a value converts to x if and only if it is x as a float64, an int or an int64 |
| `Tokens.EntryKeepsResponse` | oauthprovider/oauthprovider.go:382-454 | an entry holds the response's access and refresh token as they are, the second of receipt, and an expiry of that second plus expires_in if and only if that is a number; after a refresh the token used is carried forward exactly if the response brings none, null or "" |
| `Tokens.EntrySpeaksForItsResponse` | oauthprovider/oauthprovider.go:365-390 | a stored response, from an exchange or a refresh, is served if and only if expires_in is not a number or leaves more than the buffer, and then with its own access token; it is refreshed with the right refresh token, and re-authorised only when there is none or no refresh function |
| `Tokens.FreshnessSandwich` | oauthprovider/oauthprovider.go:365-370 | a token, exchanged or refreshed, with expires_in a float64, an int or an int64, is served only with more than 29 real seconds of it left and always, with its own access token, with at least 31 |
| `Tokens.FreshnessSandwichIsTight` | oauthprovider/oauthprovider.go:365-370 | neither bound can be improved by any margin |
| `Tokens.SameDecisionOnJsonCopy` | oauthprovider/oauthprovider.go:365-376 | an entry and its JSON copy lead to the same decision at all times if and only if expires_at is not integer-typed |
| `Tokens.BuiltEntriesDecideAlike` | oauthprovider/oauthprovider.go:441-467 | entries the library builds always meet that condition |
| `Tokens.RefreshChain` | oauthprovider/oauthprovider.go:373-390 | a refresh token survives a chain of refreshes if and only if every response gives it as absent, null or text, and is then the latest one issued |
| `Credentials.TrimSpaceEmptyIffBlank` | credentialsprovider/credentialsprovider.go:302 | the blank test rejects exactly white-space-only values |
| `Credentials.Collect` | credentialsprovider/credentialsprovider.go:299-307 | acceptance and the collected map do not depend on the order of the map iteration |
| `Values.NormalIdempotent` | store/encryption.go:91-121 | a second trip through JSON changes nothing more |
| `Encoding.DecryptEncrypt` | store/encryption.go:91-121 | decryption reverses encryption under every nonce up to normalisation, nil maps included |
| `Encoding.DecodesIffReadable` | store/file.go:168-178 | a file yields no record if and only if its bytes are too short, are refused by the AEAD, or do not hold a text "record" of the right shape |
| `SampleCodec.SampleIsLawful` | store/encryption.go:91-121 | the laws asked of JSON and the AEAD are met by a concrete codec |
| `Encoding.DecodesToIff` | store/file.go:168-184 | bytes decode to a record if and only if they open to an object whose member "record" is a JSON text of it; absent or null members are nil and 0 |
| `Encoding.DecodeEncodeRecord` | store/file.go:143-184 | through both JSON layers, nonce and seal a record comes back normalised with its expiry exact |
| `FileStore.ReadAfterWrite` | store/file.go:143-184 | a written record reads back until its whole-second expiry and is then removed |
| `FileStore.UnreadableDataIsRemoved` | store/file.go:168-178 | a file reads as absent at every time if and only if its bytes are unreadable, and the read then removes it and no other |
| `FileStore.FileExpiryIsWithinASecond` | store/file.go:143-144 | a file record never expires before the memory entry and always within a second after it |
| `FileStore.FilePendingStore.WriteRecord` | store/file.go:143-158 | the file holds the encoded record that `ReadAfterWrite` and the refinement speak of, no other file changes |
| `FileStore.FilePendingStore.ReadRecord` | store/file.go:160-184 | the stepwise read returns the record exactly when it decodes and has not expired, and otherwise removes the file, unreadable bytes at any time |
| `FileStore.FilePendingStore.Pop` | store/file.go:201-211 | as a read, and the file is gone whether or not it was readable |
| `FileStore.FilePendingStore.WaitForResult` | store/file.go:219-237 | the poll loop among other processes: what it saw at each look, why it stopped, what it left, and that a wait of T seconds takes at most floor(2T) + 2 looks |
| `FileStore.FileWaitReturnsOnTimeResult` | store/file.go:219-237 | a result another process writes by the deadline is returned, if no two looks are more than ttl apart |
| `RedisStore.ReadAfterSet` | store/redis.go:105-132 | a stored value reads back normalised exactly until its expiry, for ever with ttl zero, and is refused with a negative one; other keys stay |
| `RedisStore.UndecryptableDataIsDeleted` | store/redis.go:118-132 | live data reads as absent and is deleted by a read if its bytes are too short, forged, or neither an object nor null, and no other data is deleted |
| `RedisStore.RedisPendingStore.AtomicPop` | store/redis.go:140-161 | the value if live; the key is gone, also when undecryptable |
| `RedisStore.RedisPendingStore.Get` | store/redis.go:114-132 | the value if live; undecryptable data is deleted |
| `RedisStore.RedisPendingStore.SetResult` | store/redis.go:169-178 | the key written, with the default lifetime for a ttl that is not positive |
| `RedisStore.RedisPendingStore.WaitForResult` | store/redis.go:181-209 | the poll loop among other processes, which may also act between EXISTS and the pop: what each look saw, why it stopped, that the key it saw is gone, and at most floor(2T) + 2 looks |
| `RedisStore.RedisWaitReturnsOnTimeResult` | store/redis.go:181-209 | an on-time result is seen, as for files, and returned if it is still there when the pop runs; otherwise the wait returns nil at once |
| `Polling.PollsAreBounded` | store/file.go:219-237 | any poll loop of this shape that waits T seconds takes at most floor(2T) + 2 looks |
| `Polling.OnTimeResultIsReturned` | store/file.go:224-236 | any poll loop of this shape refines the blocking wait when no gap exceeds the result's lifetime |
| `Polling.LongGapLosesTheResult` | store/file.go:224-236 | that bound is exact: a gap longer by any margin can lose the result |
| `Keys.TrimSuffixColon` | store/redis.go:42-47 | the loop leaves the one text that is the input without its trailing colons |
| `Keys.NewTokenPrefix` | store/redis.go:32-40 | the prefix built with the trimming loop is the one whose keys `NamespacesShareKeysIff` compares |
| `Keys.TokenPrefixIs` | store/redis.go:32-47 | the default for an empty prefix, and a namespace between single colons in place of all trailing ones |
| `Keys.PendingKeysCoincideIff` | store/redis.go:17-18 | two pending keys, or two done keys, coincide if and only if their prefixes and hashes do |
| `Keys.DirectoriesAreDisjoint` | store/file.go:135-141 | two metadata paths, or two result paths, coincide if and only if their directories and hashes do |
| `Keys.KeySpacesAreDisjoint` | store/redis.go:16-18 | token, pending and done keys never coincide, for all prefixes and inputs |
| `Keys.NamespacesShareKeysIff` | store/redis.go:32-47 | under one prefix two distinct namespaces share a token key if and only if one is empty, the hashes collide and the prefix already ends in the other between colons |
| `Keys.PrefixesCanMeet` | store/redis.go:32-40 | under different prefixes namespaces can meet |
| `Keys.PathsAreDisjoint` | store/file.go:135-141 | metadata and result files never coincide, and two keys share a file only by a hash collision |
| `Backends.BackendsAgree` | store/memory.go:81-156 | in every fair series of operations memory answers as the timed map, and files and Redis with its normalised answer |
| `Backends.MemoryStep` | store/memory.go:81-156 | one operation on the memory backend refines the timed map |
| `Backends.FileStep` | store/file.go:143-237 | one operation on the file backend refines the timed map |
| `Backends.RedisStep` | store/redis.go:105-209 | one operation on the Redis backend refines the timed map |
| `Backends.ReadsAgreeIffFair` | store/file.go:179-182 | Get and Pop answer alike on all backends if and only if they avoid the rest of the second of the expiry, or nothing is left to answer |
| `Backends.WaitsAgreeIffFair` | store/memory.go:113-130 | waits answer alike if and only if there is no result or they come before its expiry |
| `Backends.SecondResultDiverges` | store/memory.go:124-128 | after a second SetResult on an unconsumed key memory answers the first result, files and Redis the last |

## Left out

- The provider flows are a state machine over values, not methods on a provider object: their point is the interleaving of atomic steps. What the SDK session object itself does is not modelled.
- The at-most-once results for pops and the flows take a pop as one step, as the memory and Redis backends do; the file backend reads and removes in two steps and is covered only for operations one after another.
- MemoryStore.MemoryPendingStore.WaitForResult: is the wait that nobody disturbs, which the backend comparison needs; interleaved waits, the timer and the context are the methods of `MemoryStore.Goroutines`, because one sequential method cannot be interleaved.
- Redis network faults, client retries and file-system errors other than "reported and had no effect"; the deadline check of a poll happens at the instant of its look.
- The token stores (`MemoryTokenStore`, `FileTokenStore`, `RedisTokenStore`) beyond what the flows need: map updates with the same decrypt-or-remove rule as pending records.
- Concurrent refreshes of one slot may overwrite each other; the refresh chain is stated for refreshes one after another, the provenance for any interleaving.
- Rounding of float64, int64 overflow, invalid UTF-8 and case-insensitive or duplicate JSON member names.
- jwtvalidator, middleware, the store factory, HTML pages, URL building and token HTTP requests.
- `NewCipherFromEnv` and key loading, AES-GCM, SHA-256, base64 and random generation themselves.
- Isolation of file namespaces through path joining.
- Redis itself: a SET with a negative expiry is taken to be refused, and expiry to happen exactly at its time.
