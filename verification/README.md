# nfs-crust, verified

A Dafny model of nfs-crust, an asynchronous NFSv4.1 client for object-like files, and proofs about the
parts of it that are hardest to get right: the atomic `put` over a server that may lose replies, refuse
operations for a while, restart and run requests late; the pipelined reads that `get` is built on; the
session's slot table; the reconnect coordinator; pending RPC calls; compound encoding and record framing;
listing and sweeping.

`dafny verify dfyconfig.toml` checks the whole project.

## What is modelled

**Server.** `Server.dfy` is the server as one `put` sees it: the destination directory, file contents with
the set of byte positions on stable storage, a filehandle register that holds the path it was walked to, a write verifier that changes at each restart, and *limbo*, the
requests the client has given up on and the server may still run. A COMPOUND runs operation by operation and
stops at the first failure (section 16.2 of RFC 5661). Between any two operations other clients may act, the
server may restart and lose every byte that is not stable, and requests in limbo may run (`Rely`;
`OtherStepIsRely`, `RestartStepIsRely` and `LateStepIsRely` show that it admits each of these).
An operation acts on the destination directory only if LOOKUP led there component by component; elsewhere it
may succeed too, but then neither creates the put's temporary name nor changes the destination.
`Runs.dfy` says what one call can do: never leave the client, vanish with its request at large, or be
answered with a reply list that may be cut short or unreadable in places but is not made up.

**Put.** `Decode.dfy` holds the reply decoders over reply lists, `Compounds.dfy` the compounds and their
agreement with the decoders, `Content.dfy`, `Publishing.dfy`, `Fused.dfy` and `Writing.dfy` what running them
does to the file. `Session.dfy` is the request path with its transient retries, `Uploading.dfy` and
`PipelinedWrite.dfy` the upload, `Put.dfy` the close-and-publish, the one-compound put and `put` itself.
Methods of `NfsSession` and those that take one are the client's code; the server's and the network's
choices are nondeterministic. Two history flags make the strongest statements possible: `ambiguous` (some
answer left doubt about what ran: none came, it was unreadable or ILLEGAL, or the server restarted
meanwhile) and `calm` (every answer was as asked, except perhaps EXIST for LINK).

The state records every change that an operation of this put, in time or late, makes to what the
destination stands for (`Rebind`). The result is `PutResult`, proved of `Put` for every run. Ok means exactly one
such change, to this put's own file, which held exactly the body at that instant, all of it on stable storage.
AlreadyExists means a file of someone else's was found at the destination and this put left it alone.
OutcomeUnknown means at most one change, after a doubtful answer to this put. After any other error this put has
not changed the destination and nothing still in flight can. Whatever its result, a create-new put never
replaced a file at the destination, and nothing of it still in flight can. In a calm run the put succeeds, or reports
AlreadyExists for a create-new put, and leaves no temporary name behind.

**Reads.** `Reassembly.dfy` has the transitions of out-of-order reassembly on values and their invariants,
`HonestRead.dfy` what they make of honest replies. `Answers.dfy` is the connection reads go through: it answers
anything, at any time, while the path may be rebound, and its log keeps the answers, so that results are
stated for two kinds of log, in which nothing false was accepted or everything was answered, and for every
log: the loops end as a replay of their log does, and a failed answer is what the caller is told.
`PipelinedRead.dfy` has
the scheduler, the reassembler and the loops in place, `Get.dfy` reads of ranges and whole files.

**Protocol machines.** `Slots.dfy`, `Reconnect.dfy` and `Pending.dfy` are state machines whose actions are the
atomic steps of any number of concurrent tasks; their invariants hold in every state of every run.

**Bytes.** `Grammar.dfy` reads compounds from bytes by the XDR grammar, independently of the encoder;
`Encoding.dfy` and `Framing.dfy` are XDR encoding, its lengths, its reading back and record marking; `Listing.dfy` and
`Sweep.dfy` are paging through directories and removing stale temporary files.

## Where the code does not keep a promise

- A torn publication. The documentation of `put` promises that a partially written file never appears at the
  destination. The verifiers are compared only after the compound ran, so a server restart between the writes
  and the COMMIT can publish other bytes of the same length. `Torn.PublishesBodyExactlyWhen` and
  `TornFused.FusedPublishesExactlyWhen` prove for both publishing compounds that one that ran to its end
  publishes the body exactly when the verifiers agree; `Torn.MismatchIsUnknown` and
  `TornFused.DisagreementIsUnknown` that any disagreement is reported as of unknown outcome.
- A request in flight that is not reported. A highest slot id is to report higher-numbered requests in flight,
  but the slot guard unlocks the slot before its release clears the slot's active flag, so the flag of the next
  holder can be cleared (`Slots.HolderHiddenExactlyWhen`). `Slots.ReportedExactlyWhen` gives the exact condition
  under which a request in flight is sure to be reported, `Slots.UnreportedReachable` a run in which one is not.
- A page that is empty without EOF. `Listing.ListPage` proves that a listing continues where it stopped exactly
  when the server's page is nonempty or final; otherwise it fails at the start of a directory and elsewhere
  starts over. `Sweep.ScanEndsExactlyWhen` proves the same of the scan of a sweep, which then never ends;
  `Sweep.EndlessScan` is such a scan.
- A connect task that dies before it reports, or a retry time that overflows. `Reconnect.ReplaceableExactlyWhen`
  proves that these are exactly the cases in which a generation can never be replaced any more;
  `Reconnect.StuckForever` that every caller waiting on it is then refused, `Reconnect.StrandedReachable` and
  `Reconnect.BarredReachable` that both occur.
- The comment above `put_once_fused` says that transient statuses fall back to the separate compounds; the code
  returns a retryable error to its caller. The model follows the code.

## Model

| member | source | states |
|---|---|---|
| Put.Put | src/client.rs:152-166 | Over every run: Ok means this put changed what the destination stands for exactly once, to its own file, which held exactly the body then, all of it stable; AlreadyExists means a foreign file was found at the destination and this put left it alone; OutcomeUnknown means at most one change, after an answer to this put that left doubt; after any other error this put has not changed the destination and nothing in flight can. In a calm run it succeeds or reports AlreadyExists, and no temporary name it used is left. A create-new put never replaces a file, nor can anything of it in flight, whatever it reports |
| Put.PutPublishesOnce | src/client.rs:147-151 | Whatever the result, a put changes the destination at most once, counting what is still in flight; an Ok one to the whole body, durable; any error but an unknown outcome means not at all; a create-new put never changes it from one file to another |
| Put.SmallWeight | src/nfs4/session.rs:289-313 | A publish-capable exchange adds at most one publish and, for a create-new put, no RENAME that ran or can still run, so that everything it bound was unbound before |
| Put.UnpublishedReplacesNothing | src/client.rs:147-151 | A put that published nothing replaced nothing, and nothing of it in flight can |
| Put.RetriedAfterNothing | src/client.rs:680-703 | An error that leads to a reconnect and another attempt proves that the attempt before published nothing |
| Put.PutOnce | src/client.rs:168-226 | One attempt, fused or in separate compounds, has the meaning of the whole put |
| Put.PutSeparately | src/client.rs:187-225 | OPEN, the writes, close and publish with their error paths have the meaning of a put, and in a calm run remove the temporary name |
| Put.PublishWritten | src/client.rs:210-225 | Close and publish of an uploaded body has the meaning of a put; what was not published has its temporary name removed |
| Put.Discard | src/client.rs:200-209 | Giving up a half-written file publishes nothing and returns an error that still asks for a new session if the write failure did |
| Put.PutOnceFused | src/client.rs:234-294 | The fused attempt either has the meaning of a put, or falls back with nothing published |
| Put.PublishResultHolds | src/client.rs:2040-2051 | Turning the class of a publish error into the put's result keeps what the class proves |
| Put.FailureVerdict | src/client.rs:1967-1982 | A located failure of a publish-capable compound means what its class says: past the publish it was published, LINK EXIST found the destination taken, any other named operation did not publish |
| Put.ExchangeVerdict | src/client.rs:1964-1977 | Every error of a publish-capable exchange, lost and damaged replies included, is classified truthfully about the destination, and the unknown class needs an answer to this put that left doubt |
| Put.ClearNamesOperation | src/client.rs:1979-1982 | Without a doubtful answer or disagreeing verifiers every error proves which operation did not run |
| Put.ClosePublish | src/nfs4/session.rs:263-354 | Commit, verify, close and publish, each in the destination's directory: Ok is the change of the destination to the secured body, and for a create-new put the destination was unbound; errors are classified truthfully; CLOSE and the publish each happen at most once, within 1 + transient_retries compounds over both phases; a delay at an operation after SEQUENCE and up to the publish is reported only after all of them |
| Put.PublishAfterClose | src/nfs4/session.rs:356-400 | Publishing alone after CLOSE succeeded shares the retry budget, closes nothing again, has the same verdicts, and reports a delay only once the budget is spent |
| Put.ResumableMeans | src/nfs4/session.rs:326-332 | The resume condition holds exactly when a transient failure stopped the run after CLOSE and not past the publish |
| Put.DelayedClose | src/nfs4/session.rs:315-354 | A delay at any operation up to the publish is safe to replay whole or can be resumed after CLOSE |
| Put.ClosePublishSettled | src/nfs4/session.rs:276-325 | What an answer to the close-and-publish compound settles: published, or secured and unpublished between CLOSE and the publish |
| Put.PublishSettled | src/nfs4/session.rs:356-400 | What an answer to the publish-only compound settles |
| Put.TryPutFused | src/nfs4/session.rs:621-713 | The one-compound put: done means the name in the destination's directory was changed once, to the whole body, durable, from nothing if create-new, and the temporary name is gone; a taken name means the destination was left alone; errors are classified truthfully; no request means no change |
| Put.FusedAnswered | src/nfs4/session.rs:652-712 | A successful answer to the fused compound proves publication of the whole body with the full count written, or that nothing ran past the guarded OPEN |
| Put.FusedFailed | src/nfs4/codec.rs:590-641 | A failure reported past the publish of the fused compound proves that the body was published |
| Put.CloseFile | src/nfs4/session.rs:192-206 | CLOSE outside a publish never publishes, and in a calm run succeeds and touches nothing of the put |
| Put.RemoveTemp | src/nfs4/session.rs:547-557 | Removing the temporary name never publishes, and in a calm run leaves the name free |
| Put.WriteBytes | src/client.rs:2100-2123 | Whichever way the body is written, Ok means every byte is stable or held by the server instance of the returned verifier, under the temporary name only |
| Put.OpenForPut | src/client.rs:187-194 | Opening, with parent directories created on NOENT from LOOKUP, yields a file only this put knows |
| PipelinedWrite.WriteChunkAllPipelined | src/client.rs:2150-2197 | For every order of service and completion, short writes and mix of stability levels, Ok means the whole body is held under one verifier; in a calm run it succeeds |
| PipelinedWrite.Advance | src/client.rs:2199-2222 | One request of one chunk keeps every other byte accounted for and shrinks the work left |
| PipelinedWrite.CollectGoing | src/client.rs:2180-2196 | Merging a finished chunk keeps every byte of it held on the terms of the merged outcome, and keeps the first error |
| PipelinedWrite.Fill | src/client.rs:2163-2174 | Chunks are started in order, without overlap, as long as nothing failed |
| PipelinedWrite.Next | src/client.rs:2176-2190 | Whatever order requests are served in, some chunk finishes, with every byte still accounted for |
| Uploading.OpenFile | src/nfs4/session.rs:159-190 | A guarded OPEN runs at most once however often the compound is replayed; opened means an own file that was created in the destination's directory and is reachable only through the temporary name |
| Uploading.OpenTempFile | src/client.rs:2060-2075 | Up to eight fresh names; Ok is an own file under a name nobody awaits |
| Uploading.FreshTemp | src/client.rs:2077-2084 | A temporary name never used before, which no request still in flight names |
| Uploading.WriteOnce | src/nfs4/session.rs:518-534 | The bytes a WRITE reply counts are in the file on the terms of that reply, and nothing outside the range changed |
| Uploading.WriteAndCommit | src/nfs4/session.rs:536-545 | If the verifiers agree, the bytes counted are on stable storage |
| Uploading.WriteSingleChunkCommitted | src/client.rs:2125-2148 | Ok means the whole body is on stable storage whatever short writes occurred |
| Uploading.WriteChunkAll | src/client.rs:2224-2246 | Ok means the whole range is held under the returned verifier and nothing else of the file changed |
| Uploading.ValidateWriteReply | src/client.rs:2248-2260 | A reply is accepted, with the count it claims, exactly when it makes progress and claims no more than was sent |
| Uploading.MergeKeeps | src/client.rs:2280-2297 | Merging outcomes keeps what either promised about its bytes |
| Session.NfsSession.CompoundDecode | src/nfs4/session.rs:951-996 | The retry loop: retried compounds change nothing that must not happen twice, a transient failure that is safe to replay is returned only once the budget is spent, the last answer is decoded soundly, and without doubt an error without a status means disagreeing verifiers |
| Session.NfsSession.CompoundRawOnce | src/nfs4/session.rs:1009-1102 | An unsent request and a failed SEQUENCE ran nothing; any other error without an answer leaves doubt |
| Session.NfsSession.Call | src/nfs4/session.rs:1040-1090 | The network and the server may do anything that a call can come to, and no more |
| Session.SequenceFailedIsRely | src/nfs4/codec.rs:1073-1128 | A failed SEQUENCE changed nothing |
| Session.SafeRetryIsSteady | src/nfs4/codec.rs:238-252 | A transient failure that may be replayed ran no OPEN, CLOSE, LINK or RENAME |
| Session.DecodeBy | src/nfs4/codec.rs:372-566 | Each decoder's answer is backed by the replies it consumed, and each of its errors is located |
| Decode.CompoundReplies.Advance | src/nfs4/codec.rs:405-422 | Consuming a reply proves it is the expected operation's and succeeded, or locates the failure exactly |
| Decode.CompoundReplies.Result | src/nfs4/codec.rs:432-442 | The same with the reply's body, which must fit the operation |
| Decode.CompoundReplies.AdvanceOrExist | src/nfs4/codec.rs:450-464 | EXIST of exactly the operation asked for is an answer and never an error; everything else is as for any reply |
| Decode.CompoundReplies.AdvanceOrMissing | src/nfs4/codec.rs:1047-1064 | NOENT of exactly the operation asked for means missing; everything else is as for any reply |
| Decode.CompoundReplies.Lookups | src/nfs4/codec.rs:466-474 | A path of any length was resolved, or the failure is located inside the path |
| Decode.CompoundReplies.RenamePublish | src/nfs4/codec.rs:476-485 | Path, SAVEFH and RENAME all succeeded, or the failure is located |
| Decode.CompoundReplies.LinkRemovePublish | src/nfs4/codec.rs:487-502 | SAVEFH, path, LINK and REMOVE all succeeded, or the failure is located |
| Decode.CompoundReplies.Finish | src/nfs4/codec.rs:504-517 | A response is complete only if every expected reply was there and its status agrees |
| Decode.Start | src/nfs4/codec.rs:382-430 | Decoding begins with a successful SEQUENCE and at most the expected number of replies, or a located error |
| Decode.DecodeClose | src/nfs4/codec.rs:760-805 | Ok proves every operation succeeded and the COMMIT verifier matched; an error is located, and one past COMMIT proves the match |
| Decode.CloseReplies | src/nfs4/codec.rs:760-805 | No reply past COMMIT is looked at before the COMMIT verifier was found equal |
| Decode.DecodeRenamePublish | src/nfs4/codec.rs:832-848 | Ok proves the whole rename-publish compound succeeded; errors are located |
| Decode.DecodeLinkRemovePublish | src/nfs4/codec.rs:850-864 | Ok proves the whole link-publish compound succeeded; errors are located |
| Decode.DecodeOpen | src/nfs4/codec.rs:714-733 | Opened carries the handle GETFH gave after a successful OPEN; Exists is exactly EXIST from OPEN |
| Decode.DecodeWrite | src/nfs4/codec.rs:870-877 | Ok carries the body of a successful WRITE reply |
| Decode.DecodeWriteCommit | src/nfs4/codec.rs:879-893 | Ok carries the bodies of successful WRITE and COMMIT replies |
| Decode.DecodeFused | src/nfs4/codec.rs:590-641 | Opened proves that all operations succeeded and that WRITE and COMMIT agree; Exists is EXIST from OPEN; an error past COMMIT proves the agreement |
| Decode.FusedOpen | src/nfs4/codec.rs:600-611 | The path and the guarded OPEN succeeded, or OPEN found the name taken, or the failure is located before that |
| Decode.FusedWrite | src/nfs4/codec.rs:613-622 | WRITE and COMMIT agree before anything later is looked at, and the WRITE result is the reply's |
| Decode.FusedMiddle | src/nfs4/codec.rs:612-623 | Handle and WRITE result are those of the replies, and an error past COMMIT proves the agreement |
| Decode.FusedPublish | src/nfs4/codec.rs:624-633 | Either publish tail succeeded to the end, or the failure is located in it |
| Decode.DecodeRemove | src/nfs4/codec.rs:1006-1064 | Removed proves REMOVE succeeded; Missing is NOENT from an operation of the compound |
| Decode.DecodeSequence | src/nfs4/codec.rs:1073-1128 | Only a successful SEQUENCE reply is accepted, and a readable failed one is reported as it is |
| Compounds.ClosePublishMatches | src/nfs4/session.rs:276-313 | The compound's operations are, in order, the replies its decoder expects |
| Compounds.PublishMatches | src/nfs4/session.rs:368-397 | The same for the publish-only compound |
| Compounds.FusedMatches | src/nfs4/session.rs:636-680 | The same for the fused compound |
| Compounds.OpenMatches | src/nfs4/session.rs:167-183 | The same for the open compound |
| Compounds.RemoveMatches | src/nfs4/session.rs:551-557 | The same for the remove compound |
| Runs.FailureIsWhereItStopped | src/nfs4/codec.rs:530-566 | A located failure is the operation at which the server's run stopped |
| Runs.SuccessMeansAllRan | src/nfs4/codec.rs:372-517 | Successful replies prove that those operations ran and succeeded |
| Runs.RunWeight | src/nfs4/session.rs:263-354 | A run performs each kind of operation at most as often as its successful prefix contains it |
| Publishing.CloseSecures | src/nfs4/session.rs:276-288 | Once VERIFY succeeded after a matching COMMIT, the file holds exactly the body, stable, under its temporary name, through restarts |
| Publishing.PublishOp | src/nfs4/session.rs:289-313 | A successful LINK of a secured file in the destination's directory, or RENAME within it, makes the destination stand for that file, with exactly the body in it |
| Content.Walked | src/nfs4.rs:548-558 | After PUTFH and k LOOKUPs the current filehandle is the directory that the first k components of the path name, in order |
| Publishing.PublishesHere | src/nfs4/session.rs:289-313 | LINK and the REMOVE behind it act in the directory the path names; RENAME has it as source and as target |
| Publishing.ClosePublishPublishes | src/nfs4/session.rs:289-313 | Past LINK or RENAME the destination was changed once, to this put's file, holding exactly the body, durable |
| Publishing.PublishPublishes | src/nfs4/session.rs:356-400 | The same for the publish-only compound |
| Publishing.NotReachedNotPublished | src/nfs4/session.rs:263-354 | A run that did not get past the publish published nothing |
| Publishing.LastTakesName | src/nfs4/session.rs:289-313 | A compound that ran to its end with REMOVE or RENAME of the temporary name in the destination's directory leaves it free |
| Fused.FusedPublishes | src/nfs4/session.rs:636-680 | Past its publish, a fused run has changed the destination once, to exactly the body, durable |
| Fused.FusedEnters | src/nfs4/session.rs:636-680 | The OPEN of the fused compound acts in the destination's directory, which the RENAME form keeps saved |
| Fused.FusedReturns | src/nfs4/session.rs:636-680 | Its LINK and REMOVE, or its RENAME, act there too |
| Fused.FusedWritten | src/nfs4/session.rs:652-665 | When VERIFY passes in the fused compound, the new file holds the whole body, stable, and WRITE counted all of it |
| Writing.OpenRun | src/nfs4/session.rs:159-190 | A run of the open compound leaves an empty file in the destination's directory that only this put can reach, and GETFH names it |
| Writing.WriteRun | src/nfs4/session.rs:518-534 | A run of WRITE puts the counted bytes in the file, stable or held by the verifier it reported |
| Writing.WriteCommitRun | src/nfs4.rs:581-592 | A run of WRITE and COMMIT with one verifier makes the counted bytes stable |
| Content.CommitSecures | src/nfs4/session.rs:278-283 | A COMMIT of the whole file by the server instance that took the writes makes every byte stable |
| Content.VerifySecures | src/nfs4/session.rs:284 | With every byte stable, the right size makes the file exactly the body |
| Errors.CloseFailureKeepsClasses | src/error.rs:161-176 | Combining a failure with a close failure neither hides nor invents that a retry or a new session is called for |
| Errors.RebuildIsRetryable | src/error.rs:196-240 | Whatever asks for a new session is retryable |
| Torn.PublishesBodyExactlyWhen | src/nfs4/codec.rs:769-773 | A compound that ran to its end always publishes the body if and only if its COMMIT verifier is that of the writes |
| Torn.MismatchIsUnknown | src/nfs4/codec.rs:1214-1221 | A COMMIT with another verifier is always reported as of unknown outcome, whatever follows it in the response |
| TornFused.FusedPublishesExactlyWhen | src/nfs4/codec.rs:614-622 | A fused compound that ran to its end always publishes the body if and only if its WRITE was stable or its COMMIT carries the same verifier |
| TornFused.DisagreementIsUnknown | src/nfs4/codec.rs:614-622 | WRITE and COMMIT that disagree are always reported as of unknown outcome, whatever follows them in the response |
| ServerLemmas.OtherStepIsRely | src/client.rs:124-151 | What other clients may do is among the interference every put is proved under |
| ServerLemmas.RestartStepIsRely | src/nfs4/codec.rs:1214-1221 | So is a restart that loses every byte that is not stable |
| ServerLemmas.LateStepIsRely | src/client.rs:147-151 | So is the server running a request the client gave up on |
| ServerLemmas.ChangeIsRecorded | src/client.rs:124-151 | An operation of this put, in time or late, changes what the destination stands for exactly when the change is on record |
| Reassembly.RecordSound | src/client.rs:1793-1811 | Recording any acceptable reply that raises no error keeps every position owned once, the output contiguous, all data received kept and EOF exactly what the replies said |
| Reassembly.DrainSound | src/client.rs:1890-1915 | Draining emits every queued reply that continues the output |
| Reassembly.FinishMeans | src/client.rs:1858-1888 | For arbitrary replies, success ends at the requested end with no EOF reported, or at the one EOF of all replies: none says an earlier one, none brought data from beyond it; with an expected EOF exactly there |
| Reassembly.ExactMeans | src/client.rs:1840-1856 | An exact EOF that raises no error agrees with the one known and lies within the bound, and becomes both |
| Reassembly.ObserveMeans | src/client.rs:1793-1838 | A reply with EOF fixes it if it brought data or continues the output, and otherwise only lowers the bound, never below an EOF already known |
| Reassembly.TakeShape | src/client.rs:1909-1937 | A reply taken from the queue without error extends the output by exactly its data, and its EOF agrees with what is known |
| Reassembly.StuckIsReady | src/client.rs:1890-1907 | Below EOF a position nobody asks for is the start of a queued reply, so the output never stalls with work done |
| HonestRead.RecordHonest | src/client.rs:1793-1856 | Against an unchanging file no reply, in whatever order, raises anything but the size limit |
| HonestRead.ChainHonest | src/client.rs:1917-1937 | What honest replies put out is the file's bytes, and without EOF it ends below the file's size |
| HonestRead.FinishHonest | src/client.rs:1858-1888 | Against an unchanging file the result is the specification's, errors included |
| PipelinedRead.ReadPipelined | src/client.rs:1640-1683 | For every completion order, short-read pattern, chunk size and depth: Ok is a gap-free run of the replies received that ends at the requested end or at their one EOF; if all were answered from an unchanging file the result, errors included, is exactly that of the plain loop; at most as many READs as bytes; whatever was answered, the result is that of replaying the answers in the order they came |
| PipelinedRead.TakeAnswer | src/client.rs:1669-1679 | Whichever request is answered and however, the invariants of reassembly hold, the log gains that answer and there is less left to ask |
| PipelinedRead.ReadSequential | src/client.rs:1600-1638 | The plain loop computes the same specification under the same conditions and ends as the replay of its answers; the first failed answer is its result |
| PipelinedRead.FailureTold | src/client.rs:1669-1682 | A read that ends as its log says is told the first failed answer, unless a reply before it had raised an error already |
| PipelinedRead.ChunkScheduler.NextRange | src/client.rs:1728-1741 | Gaps first, each asked for whole, then fresh ranges; none only when nothing is left to ask |
| PipelinedRead.Schedule | src/client.rs:1653-1667 | Scheduling neither loses nor repeats a byte, and leaves nothing in flight only when nothing is left to ask |
| PipelinedRead.PipelinedEmit.RecordRead | src/client.rs:1793-1811 | Updates the reassembly in place as its transition function says |
| PipelinedRead.PipelinedEmit.DrainQueued | src/client.rs:1890-1907 | The drain loop computes the recursive drain |
| PipelinedRead.PipelinedEmit.TakeCompleted | src/client.rs:1909-1915 | Takes the first queued reply at the output position, by swap removal |
| PipelinedRead.PipelinedEmit.FinishReads | src/client.rs:1858-1888 | Computes the verdict on holes, data past EOF and expectations |
| Answers.Connection.Read | src/client.rs:1940-1958 | Any answer may come; only replies that make progress and fit the request are let through; the log gains exactly that answer |
| Answers.AnyReply | src/client.rs:1346-1360 | A reply is let through only if it makes progress or says EOF, and is no longer than asked |
| Answers.ReceivedHonest | src/client.rs:1640-1683 | When nothing false was accepted, every reply received is honest about the file the handle stands for |
| Get.GetOnce | src/client.rs:306-342 | If nothing false was accepted, Ok is the whole content of the one file the path was bound to at an instant of the call, within the limit; if everything was answered it succeeds exactly when the file is within the limit; for every log: if an answer failed, the result is the first such error, unless a reply before it had raised one |
| Get.GetKnownSizeOnce | src/client.rs:374-397 | The same with a supplied size: no file of another size is ever returned; if everything was answered it succeeds exactly for that size and reports a size mismatch for any other; for every log: if an answer failed, the result is the first such error, unless a reply before it had raised one |
| Get.ReadRange | src/client.rs:1263-1328 | The bytes of the range of one bound file, clipped at EOF; if everything was answered exactly the specification's result; for every log: if an answer failed, the result is the first such error, unless a reply before it had raised one |
| Get.ReadSmallRange | src/client.rs:1273-1297 | A short first reply is dropped and the path resolved again, so no two files are mixed; a failed answer is the result |
| Answers.Connection.ReadPath | src/client.rs:1273-1304 | Reply and size are of the file bound at one instant during the call |
| Answers.Connection.LookupFile | src/client.rs:1295-1297 | The handle is of the file bound at one instant during the call |
| Get.GatheredIsPart | src/client.rs:1858-1937 | A gap-free run of honest replies is the file's part, and a met expectation its size |
| Get.ReadHandle | src/client.rs:1514-1554 | Reading by handle, nothing included, gives the specification's result |
| Get.CheckedReply | src/client.rs:1273-1294 | Checking one reply that needs no continuation is checking the whole range |
| Get.ReadSingleChunk | src/client.rs:1556-1598 | One READ, continued in order if short, gives the specification's result |
| Get.ReadAfterPrefix | src/client.rs:1471-1512 | Continuing after a prefix gives the rest of the same file |
| Get.ValidateExpectedEof | src/client.rs:1366-1417 | A reply with EOF is accepted exactly at the expected offset, one without exactly below it |
| Reassembly.ValidateObservedEof | src/client.rs:1419-1430 | Accepted exactly when the EOF observed is the expected one, or none was expected |
| Slots.RunInv | src/nfs4/slots.rs:87-231 | Exclusive holders, sequence numbering, limits and permit accounting hold in every reachable state |
| Slots.InvStep | src/nfs4/slots.rs:87-231 | Each atomic step of each task keeps those invariants |
| Slots.IdleSlotIsNext | src/nfs4/session.rs:1022-1090 | An idle usable slot carries the server's last sequence id plus one modulo 2^32, with nothing in flight |
| Slots.NoRepeats | src/nfs4/slots.rs:189-195 | The server never sees a slot and sequence id again within 2^32 requests on that slot |
| Slots.RetiredForever | src/nfs4/slots.rs:197-215 | From the step that leaves a request's fate unknown, a lost answer or a cancellation before sending, nothing is ever sent on that slot again |
| Slots.PermitsMatchLive | src/nfs4/slots.rs:197-231 | Between retirements free and held permits are the live slots, which are the usable ones, and the semaphore is closed exactly when none is left |
| Slots.IssuedHighestIsLegal | src/nfs4/slots.rs:56-74 | An issued highest slot id lies between the slot held and the enforced limit read |
| Slots.IssuedWithinLastSent | src/nfs4/slots.rs:56-85 | In every run a request goes out on a slot within the target, with a highest slot id within the limit, that the server had last sent when the choice began |
| Slots.LimitsAreLast | src/nfs4/slots.rs:76-85 | The table enforces exactly what the server last sent, capped by its number of slots |
| Slots.IssuedHighestCoversFlagsSeen | src/nfs4/slots.rs:47-74 | Every flag above an issued highest slot id was seen clear in that very choice |
| Slots.HolderHiddenExactlyWhen | src/nfs4/slots.rs:156-231 | A holder's flag can vanish while it holds the slot if and only if an earlier holder's release is still pending |
| Slots.ReportedExactlyWhen | src/nfs4/slots.rs:54-74 | A request in flight throughout is reported by every choice of a highest slot id that starts now if and only if its slot is below the chooser's, or its flag is set with no earlier release of it pending |
| Slots.UnreportedReachable | src/nfs4/slots.rs:54-74 | A run of three tasks on three slots gets to a request about to be sent with a highest slot id below a slot in use |
| Reconnect.RunInv | src/client.rs:713-829 | The coordinator's invariants hold in every state of every run |
| Reconnect.InvStep | src/client.rs:713-829 | Each atomic step keeps them |
| Reconnect.SingleFlight | src/client.rs:732-762 | No two connect tasks for one generation are under way |
| Reconnect.ReplacedOnce | src/client.rs:790-797 | Each generation was replaced exactly once, by a task started for it |
| Reconnect.OkMeansReplaced | src/client.rs:720-731 | A caller told Ok holds a generation that has been replaced |
| Reconnect.ToldOkExactlyWhen | src/client.rs:720-762 | A caller awaiting a connect task is told Ok if and only if that task installed its session and lived to report; one that comes with a generation is told Ok at once if and only if it was replaced meanwhile |
| Reconnect.BackoffKept | src/client.rs:737-746 | In every run another connect task for a generation starts only after the failure of the one before was recorded, and no sooner than the backoff later |
| Reconnect.ReplaceableExactlyWhen | src/client.rs:732-797 | As long as callers arrive, a generation can still be replaced if and only if its connect task has not died and no failure without a retry time was recorded for it |
| Reconnect.StuckForever | src/client.rs:2349-2385 | Otherwise it is never replaced in any run, and every caller waiting on it is refused |
| Reconnect.StrandedReachable | src/client.rs:748-762 | A run of one caller and one connect task that dies gets there |
| Reconnect.BarredReachable | src/client.rs:2349-2370 | So does one whose connect fails when the retry time overflows |
| Pending.RunInv | src/rpc.rs:516-562 | The invariants of the pending table hold in every state of every run |
| Pending.InvStep | src/rpc.rs:516-562 | Each atomic step keeps them |
| Pending.NoOrphan | src/rpc.rs:810-916 | A waiting call has its result, is being answered, or is still listed for the next failure to find; after the reader ended it has its result |
| Pending.NotSentIsTrue | src/rpc.rs:528-551 | Not sent is never said of a request that reached the queue |
| Pending.OutcomeExactlyWhen | src/rpc.rs:516-562 | In every run a call has ended with an outcome if and only if the step for that outcome was taken: a reply or failure received, its timeout with nothing received, not sent, or cancelled |
| Pending.AnsweredWithItsOwn | src/rpc.rs:548-562 | A call that ends answered received, before its timeout, the reply read for its own xid, or the failure of the transport |
| Pending.ToldFrom | src/rpc.rs:324-349 | Whatever a call was told is a reply read for its own xid while registered, or the failure of the transport; none is another call's or made up |
| Pending.RepliesGoHome | src/rpc.rs:324-349 | A reply is handed to the live call that registered its xid, before and after the table was drained |
| Encoding.EncodeSegments | src/nfs4/codec.rs:66-101 | The segments read back, by the XDR grammar, as exactly the tag, SEQUENCE and operations given; they are together the flat encoding, each WRITE body one of them, none empty, and their length the flat length |
| Encoding.OpReadsBack | src/nfs4/ops.rs:146-296 | Every operation whose fields fit their widths reads back as itself, arguments in their places, whatever follows it |
| Encoding.CompoundReadsBack | src/nfs4/codec.rs:66-125 | Every encoded compound reads back as its tag, its SEQUENCE and its operations in order |
| Encoding.FromSegments | src/rpc.rs:371-382 | Dropping empty ranges keeps bytes and total length |
| Encoding.CompoundLenExact | src/nfs4/codec.rs:136-145 | The length counted without encoding is the length encoded, a multiple of four |
| Encoding.OpLenExact | src/nfs4/ops.rs:146-364 | The same for every operation |
| Encoding.FitsExactlyWhen | src/nfs4/codec.rs:154-174 | Every WRITE compound within the chunk size passes the request limit, for every credential, handle and offset, exactly when 628 bytes and a padded chunk fit |
| Encoding.ReserveIsEnough | src/nfs4/codec.rs:1598-1633 | Above the 1024-byte reserve that is always so; at or below it exactly from 632 bytes on |
| Framing.WriteRecordBatch | src/rpc.rs:753-808 | Under any pattern of partial writes exactly the framed records are emitted in order; a failure emitted a prefix; an oversized record emits nothing |
| Framing.Sink.WriteVectored | src/rpc.rs:797-803 | The stream takes any number of the bytes offered, from the front, or fails and takes none |
| Framing.AdvanceSlices | src/rpc.rs:804-805 | Advancing drops exactly the bytes written |
| Framing.ReadRecord | src/rpc.rs:845-906 | However the bytes arrive, reading gives the parse of the stream and leaves the rest |
| Framing.Source.ReadExact | src/rpc.rs:887-906 | Exactly the next bytes, however they arrive, or an error if the stream ends first |
| Framing.FragmentsReadBack | src/rpc.rs:845-883 | Any fragmentation of a record within the limit reads back as the record |
| Framing.FrameReadsBack | src/rpc.rs:753-885 | A written frame within the limit reads back as its record |
| Framing.BatchReadsBack | src/rpc.rs:753-906 | A written batch reads back as its records in order |
| Listing.DecodeReaddir | src/nfs4/codec.rs:1415-1452 | The names of the entries looked at, without dot names, at most the limit, with the cookie of the last entry looked at |
| Listing.ListPage | src/client.rs:631-678 | A page continues where the last one stopped if and only if the server's page is nonempty or final |
| Listing.TokenPosition | src/client.rs:660-678 | A token stands for one position of the directory |
| Listing.ListAll | src/client.rs:602-678 | Following tokens through pages of any size, cut anywhere, lists every name once and in order, and ends |
| Sweep.SweepOnce | src/client.rs:556-600 | Ok(n) means exactly n entries were removed by this attempt, each a temporary file created no later than the cutoff, and every temporary file left is newer; it ends while others only remove entries and the server sends finitely many empty pages without EOF, and reports a protocol error only after such a page |
| Sweep.ScanEndsExactlyWhen | src/client.rs:566-599 | The scan of a directory that does not change reaches its end if and only if no page it gets is empty without EOF |
| Sweep.BlankPageFails | src/client.rs:2301-2314 | After such a page the scan fails at the start of the directory, and from anywhere else it never ends |
| Sweep.OnwardIsCookie | src/client.rs:2301-2314 | Where the scan goes on is where the last cookie of the page leads, or a refusal when it did not move |
| Sweep.EndlessScan | src/client.rs:566-599 | A directory of two files and a server with which the scan goes round for ever |
| Sweep.StaleOf | src/client.rs:573-580 | Exactly the stale entries of the page |
| Sweep.RemoveTempNames | src/client.rs:2006-2027 | The count is exactly the entries this attempt removed, each of them named; without an error every name is gone |
| Sweep.Directory.RemoveAt | src/client.rs:1992-2004 | Removed means this attempt removed an entry that was there; missing means it was gone |
| Sweep.Directory.ReadPage | src/nfs4/codec.rs:1415-1452 | A page holds exactly the entries present up to the last one sent, whose cookie it carries, or to the end; an empty page carries cookie 0 |

## Left out

- Path parsing, the reserved prefix check, ULID generation and token text. Temporary names are numbered, and continuation tokens are cookies; cookie verifiers are not modelled.
- Session.NfsSession.CompoundDecode: the sleep between retries is not modelled, nor are fatal SEQUENCE status flags, which make later requests fail unsent.
- Stateids, open owners, CLOSE sequence ids and the deferred CLOSE worker: the model counts CLOSE operations but not open state.
- Put.OpenForPut: creating parent directories is any outside activity with any result, because directories above the destination are not modelled.
- Put.Put: building a new session is any outside activity with any result here; its coordination is in `Reconnect.dfy`. The negotiated request size and operation count decide nondeterministically whether the fused compound fits.
- Other clients that create this put's temporary names or write its file: both are taken to be the put's own, as the names' random part makes them. Others may remove temporary names at any time, as a sweep does.
- Byte-level decoding of replies: decoders work on reply lists whose headers and bodies may be unreadable. A response without replies and with a failed status is taken to mean that nothing ran.
- PipelinedWrite.WriteChunkAllPipelined: one exchange of one chunk, with its replays, is one step; the steps of different chunks come in any order.
- PipelinedWrite.Advance: the same.
- Decode.DecodeSequence: a SEQUENCE result for another session, slot or sequence id is a malformed one here.
- Slots.RunInv: retiring a slot (its flag, the live count and closing the semaphore) is one step.
- Framing.ReadRecord: the response limit is constant while one record is read.
- Encoding.EncodeSegments: that the bytes read back is stated for fields that fit their 32- or 64-bit widths.
- Overflow of 64-bit offsets and lengths, saturating additions and lengths beyond 32 bits: integers are unbounded; only sequence ids wrap.
- Sweep.SweepOnce: other clients remove entries but add none, and cookies stay valid; the attempt is followed for any finite number of empty pages without EOF, and `Sweep.ScanEndsExactlyWhen` covers the rest for a directory that does not change.
- TLS, credentials from the environment, address resolution, timeouts and the connection handshake.
- `delete`, `get_range` and `entry_info` as wholes, and attribute decoding.
