# laughter NIF: a Dafny model of the rewriting bridge

laughter exposes the `lol_html` streaming HTML rewriter to the BEAM through
two native interfaces. This project models the logic the bridge itself
implements around that external parser, and proves what it promises.

**Polling rewriter** (`rewriter.rs`):
- **Registry.** Element and text handlers are registered on a configuration object. Each one draws its ID from one process-wide counter that starts at 1 000 000.
- **Worker.** A rewrite starts a worker. Each time a handler fires, the worker queues a request and suspends until the controller responds.
- **Responses.** A response is a list of `(op, arg1, arg2)` string triples. They are decoded into mutations and applied, in order, to the live element or text chunk.
- **Controller.** The controller polls the handle for requests, then for the worker's single result. It can read the output buffer.

**Buffered rewriter** (`lib.rs`):
- **Filters.** Each filter is validated and takes an ID from a second counter, which starts at 0.
- **Queueing.** A rewriter created from the filters queues one message per matched element and per non-empty text chunk.
- **Sending.** After each successful `parse` or `done`, the queue goes to the filters' processes in order.
- **Lifecycle.** `done` consumes the parser. A successful `done` then sends one end notification per filter.

Modules:
- `base.dfy`: `Option`, `Result` (a value, an error returned as `{:error, reason}`, or an exception the NIF raises), `Outcome` and bytes, and the order in which a process-wide counter issues IDs (shared by both registries).
- `mutations.dfy`:
  - the mutation vocabulary and the decoding of response triples, with its inverse;
  - the calls an element or a text chunk makes for a response.
  - The live node is a `Node` object whose whole state is the list of editing calls made on it.
- `handlers.dfy`:
  - the handler counter and the configuration object (`RewriterConfig`), with its one-shot encoding;
  - the content handlers a rewrite builds.
- `session.dfy`:
  - the session handle (`RewriterHandle`).
    - Its channels are sequences, and each thread action is one atomic method.
    - Its ghost history and `Valid()` invariant state the protocol. Both channels are FIFO, and the worker waits on at most one response, and only while it is running. The worker sends exactly one result. Every request names a registered handler of its own kind.
  - `PollStep`, the pure specification of one poll.
  - `Write`, which starts a rewrite.
- `selectors.dfy`: selector validation (Rust's `str::trim` over the Unicode White_Space set), the filter counter and the builder.
- `buffered.dfy`: `create`, the message queue, `parse`, `done` and the end notifications.
- `scenarios.dfy`: whole sessions driven through the model, each ending in what a caller observes.

## Model

| member | source | states |
|---|---|---|
| Mutations.Decode | native/laughter_nif/src/rewriter.rs:292-311 | an op outside the fifteen known names decodes to NoOp; `set_attribute` keeps both arguments; `remove_attribute` and content ops keep `arg1`; `remove` decodes to Remove |
| Mutations.DecodeContentOps | native/laughter_nif/src/rewriter.rs:297-308 | a triple carries content exactly when its op is a known name ending in `_html` or `_text` |
| Mutations.DecodeMarkupFlag | native/laughter_nif/src/rewriter.rs:297-308 | a content op marks its content as markup exactly when its name ends in `_html` |
| Mutations.Encode | native/laughter_nif/src/rewriter.rs:294-310 | every mutation has a triple that decodes back to it, so decoding is onto the vocabulary |
| Mutations.DecodeKnownOpRoundTrip | native/laughter_nif/src/rewriter.rs:294-309 | each known op decodes to a mutation that encodes back to the same op and first argument, so no two known ops mean the same edit |
| Mutations.DecodeAll | native/laughter_nif/src/rewriter.rs:292-312 | decoding a response keeps its length and order, triple by triple |
| Mutations.DecodeAllEncodeAll | native/laughter_nif/src/rewriter.rs:292-312 | decoding an encoded list of mutations gives the list back |
| Mutations.ContentTypeOf | native/laughter_nif/src/rewriter.rs:381-387 | an edit is made as markup exactly when the mutation's flag says so, otherwise as text |
| Mutations.ElementCall | native/laughter_nif/src/rewriter.rs:330-361 | on an element, NoOp makes no call and every other mutation makes exactly the call that carries it out, with its content type |
| Mutations.TextCall | native/laughter_nif/src/rewriter.rs:363-379 | a text chunk acts exactly on Replace, Before, After and Remove, making the same call an element would; everything else is ignored |
| Mutations.ElementUnchangedIffAllNoOps | native/laughter_nif/src/rewriter.rs:162-164 | a response leaves an element untouched exactly when it holds only no-ops |
| Mutations.TextUnchangedIffNoneApplicable | native/laughter_nif/src/rewriter.rs:190-192 | a response leaves a text chunk untouched exactly when none of its mutations is Replace, Before, After or Remove |
| Mutations.TextCallsAreFilteredElementCalls | native/laughter_nif/src/rewriter.rs:363-379 | on a text chunk a response does exactly what it would do on an element after dropping the unsupported mutations |
| Mutations.ElementCallsAppend | native/laughter_nif/src/rewriter.rs:162-164 | applying two responses one after the other is applying their concatenation |
| Mutations.TextCallsAppend | native/laughter_nif/src/rewriter.rs:190-192 | the same for text chunks |
| Mutations.ApplyElementMutation | native/laughter_nif/src/rewriter.rs:330-361 | one mutation appends its element call, if any, to the element's edit log |
| Mutations.ApplyTextMutation | native/laughter_nif/src/rewriter.rs:363-379 | one mutation appends its text call, if any, to the chunk's edit log |
| Mutations.ApplyElementMutations | native/laughter_nif/src/rewriter.rs:162-164 | a response is applied to an element one mutation at a time, in list order |
| Mutations.ApplyTextMutations | native/laughter_nif/src/rewriter.rs:190-192 | a response is applied to a text chunk one mutation at a time, in list order |
| Handlers.HandlerCounter.constructor | native/laughter_nif/src/rewriter.rs:12 | the handler counter starts at 1 000 000 |
| Handlers.HandlerCounter.FetchAdd | native/laughter_nif/src/rewriter.rs:90 | returns the current value and advances the counter by one |
| Handlers.ResolveEncoding | native/laughter_nif/src/rewriter.rs:77-79 | the configured encoding is always ASCII-compatible: the label's encoding when it is, UTF-8 otherwise |
| Handlers.RewriterConfig.constructor | native/laughter_nif/src/rewriter.rs:76-86 | a new configuration has no handlers and holds the resolved encoding |
| Handlers.RewriterConfig.OnElement | native/laughter_nif/src/rewriter.rs:89-97 | returns the counter's value, advances it by one, and appends exactly one element registration with that ID and selector; IDs stay increasing |
| Handlers.RewriterConfig.OnText | native/laughter_nif/src/rewriter.rs:100-108 | the same for a text registration, from the same counter |
| Base.AppendKeepsIssued | native/laughter_nif/src/rewriter.rs:90-96 | appending the ID just drawn from a counter keeps a list of IDs issued in order |
| Base.IssuedIdsIncrease | native/laughter_nif/src/rewriter.rs:90-107 | IDs issued in order by a counter are strictly increasing and below the counter, hence distinct |
| Handlers.HandlerIdsIncrease | native/laughter_nif/src/rewriter.rs:90-107 | registrations made through the handler counter have strictly increasing IDs, all below the counter |
| Handlers.RewriterConfig.TakeEncoding | native/laughter_nif/src/rewriter.rs:122-127 | the first rewrite takes the configured encoding and leaves none; later ones get UTF-8 |
| Handlers.BuildContentHandlers | native/laughter_nif/src/rewriter.rs:134-197 | the build fails exactly when the external parser rejects some registered selector; otherwise one content handler per registration, in order, of its kind and with its selector and ID |
| Session.TextChunkRequest | native/laughter_nif/src/rewriter.rs:173-181 | a chunk sends no request exactly when it is empty and not the last of its text node; otherwise one request with its content and flag |
| Session.ChunkRequests | native/laughter_nif/src/rewriter.rs:172-181 | a text node's chunks send at most one request each, every one a text request of that handler |
| Session.ChunkRequestsLoseNothing | native/laughter_nif/src/rewriter.rs:172-194 | the requests for a text node's chunks carry all of its text in order; only the final one is flagged last, and every earlier one has content |
| Session.WorkerOutcome | native/laughter_nif/src/rewriter.rs:220-234 | the result is Ok with the produced output exactly when write and end both succeed; otherwise the write's error, or else the end's |
| Session.PollStep | native/laughter_nif/src/rewriter.rs:253-266 | a poll reports a request exactly when one is queued, and then hands out the oldest one and touches neither the result nor the output |
| Session.PollReportsTerminalOnlyWhenDrained | native/laughter_nif/src/rewriter.rs:253-283 | a poll reports done or an error only when no request is queued and a result waits; done takes a successful result and stores exactly its output; an error leaves the output alone; a pending poll changes nothing |
| Session.PollDeliversInOrder | native/laughter_nif/src/rewriter.rs:253-266 | successive polls hand out queued requests in queue order, one per poll, leaving result and output alone |
| Session.TerminalIsReportedOnce | native/laughter_nif/src/rewriter.rs:273-282 | the result is taken by one poll; the next poll with no new request reports pending |
| Session.RewriterHandle.Start | native/laughter_nif/src/rewriter.rs:236-241 | a new handle has empty channels, no result and an empty output, with its worker running |
| Session.RewriterHandle.Poll | native/laughter_nif/src/rewriter.rs:251-283 | a poll does exactly what PollStep specifies, and keeps the protocol invariant |
| Session.RewriterHandle.Respond | native/laughter_nif/src/rewriter.rs:287-322 | the decoded response is queued exactly when the response receiver is alive, which is while the worker runs and at least one handler closure holds it (ReceiverAlive); otherwise "response channel closed" |
| Session.RewriterHandle.Output | native/laughter_nif/src/rewriter.rs:325-328 | returns the output buffer and changes nothing |
| Session.RewriterHandle.ElementMatched | native/laughter_nif/src/rewriter.rs:144-155 | an element callback queues one request with its handler's ID, tag and attributes, and suspends |
| Session.RewriterHandle.TextMatched | native/laughter_nif/src/rewriter.rs:172-182 | a text callback queues the chunk's request, if any, and suspends exactly when it did |
| Session.RewriterHandle.ResumeElement | native/laughter_nif/src/rewriter.rs:156-164 | the suspended element callback takes the oldest response, if there is one, and applies it in order |
| Session.RewriterHandle.ResumeText | native/laughter_nif/src/rewriter.rs:184-192 | the same for a text callback, with only the text-supported mutations taking effect |
| Session.RewriterHandle.Finish | native/laughter_nif/src/rewriter.rs:220-234 | the worker sends its one result, as WorkerOutcome says; it signals end-of-input only after a successful write, and stops |
| Session.Write | native/laughter_nif/src/rewriter.rs:113-242 | a rewrite always takes the encoding; it raises `nif_panicked` exactly when the external parser rejects a registered selector, and otherwise returns a fresh handle in its initial state with one handler per registration; the registrations stay |
| Selectors.TrimStart | native/laughter_nif/src/lib.rs:74 | the result is a suffix of the selector that does not start with whitespace, and only whitespace was removed |
| Selectors.TrimEnd | native/laughter_nif/src/lib.rs:74 | the result is a prefix of the selector that does not end with whitespace, and only whitespace was removed |
| Selectors.Trim | native/laughter_nif/src/lib.rs:74 | the result neither starts nor ends with whitespace |
| Selectors.TrimRemovesOnlyWhitespace | native/laughter_nif/src/lib.rs:74 | the trimmed selector is one contiguous slice of the selector with only whitespace before and after it |
| Selectors.TrimEmptyIffAllWhitespace | native/laughter_nif/src/lib.rs:74 | a selector trims to nothing exactly when it is all whitespace |
| Selectors.CheckSelector | native/laughter_nif/src/lib.rs:73-81 | a selector is refused with "The selector is empty." exactly when it is all whitespace (or empty) or is `#`, `.` or `[` |
| Selectors.FilterCounter.constructor | native/laughter_nif/src/lib.rs:19 | the filter counter starts at 0 |
| Selectors.FilterCounter.FetchAdd | native/laughter_nif/src/lib.rs:83 | returns the current value and advances the counter by one |
| Selectors.FilterIdsIncrease | native/laughter_nif/src/lib.rs:83-95 | filters registered through the filter counter have strictly increasing IDs, all below the counter |
| Selectors.RewriterBuilder.constructor | native/laughter_nif/src/lib.rs:59-64 | a new builder has no filters |
| Selectors.RewriterBuilder.Filter | native/laughter_nif/src/lib.rs:66-98 | a refused selector raises "The selector is empty." without touching the counter or the builder; an accepted one gets the counter's value, advances it by one and is appended |
| Buffered.ElementHandlersShape | native/laughter_nif/src/lib.rs:123-150 | one element handler per filter, in registration order, with that filter's selector, ID and process |
| Buffered.TextSenders | native/laughter_nif/src/lib.rs:152-161 | a filter is among those that asked for text exactly when it is a registered filter with the text flag, and there are no more of them than filters |
| Buffered.TextHandlersShape | native/laughter_nif/src/lib.rs:152-161 | one text handler per filter that asked for text, in registration order, with that filter's selector, ID and process |
| Buffered.FiltersOf | native/laughter_nif/src/lib.rs:118 | the end-notification list is the filters' (ID, process) pairs in registration order |
| Buffered.BuildFilterHandlers | native/laughter_nif/src/lib.rs:121-162 | the handler-building loop fails exactly when the external parser rejects some filter's selector, and otherwise produces exactly FilterHandlersFor of the filters |
| Buffered.QueuedBy | native/laughter_nif/src/lib.rs:130-160 | one callback queues at most one message: nothing exactly for an empty text chunk, otherwise a message of the callback's kind for the handler's filter and process |
| Buffered.Queued | native/laughter_nif/src/lib.rs:130-160 | a run of callbacks queues at most one message per callback, and exactly one per callback when all are element callbacks |
| Buffered.QueuedMessagesAreWellFormed | native/laughter_nif/src/lib.rs:138-158 | no empty text message is ever queued, and each queued message comes from a registered handler of its own kind and goes to that handler's process |
| Buffered.Envelopes | native/laughter_nif/src/lib.rs:190-214 | sending a queue sends each message to its process, in queue order |
| Buffered.EndNotices | native/laughter_nif/src/lib.rs:263-265 | one end notification per filter, in registration order |
| Buffered.Rewriter.constructor | native/laughter_nif/src/lib.rs:177-181 | a new rewriter holds its parser, an empty queue and its filters |
| Buffered.Rewriter.SendMessages | native/laughter_nif/src/lib.rs:184-218 | the queue is sent oldest first and left empty |
| Buffered.Rewriter.SendEndNotices | native/laughter_nif/src/lib.rs:262-265 | every filter is sent its end notification, in registration order |
| Buffered.Rewriter.Parse | native/laughter_nif/src/lib.rs:220-242 | a consumed rewriter fails with "rewriter already consumed"; a failed write returns its error and sends nothing; a successful one sends the whole queue |
| Buffered.Rewriter.Done | native/laughter_nif/src/lib.rs:244-268 | the parser is taken out whatever happens; a failed end returns its error and sends nothing; a successful one sends the queue and then the end notifications |
| Buffered.Create | native/laughter_nif/src/lib.rs:100-182 | an encoding argument that is not UTF-8 is an error; otherwise the call raises `nif_panicked` exactly when the external parser rejects a filter's selector, and else returns a fresh rewriter with the filters' handlers and (ID, process) list, the resolved encoding and an empty queue |
| Scenarios.SetAttributeSession | native/laughter_nif/src/rewriter.rs:144-164 | with one element handler, the controller first sees nothing, then the element's request; a `set_attribute` response sets exactly that attribute |
| Scenarios.EmptyChunkIsNotReported | native/laughter_nif/src/rewriter.rs:176-178 | an empty chunk that is not last neither suspends nor reaches the controller |
| Scenarios.ReplaceTextSession | native/laughter_nif/src/rewriter.rs:172-194 | a final chunk is reported; of `replace_text` and `set_attribute`, only the replacement reaches the chunk |
| Scenarios.DoneIsReportedOnce | native/laughter_nif/src/rewriter.rs:273-283 | a successful pass is reported as done once, then pending, and the output stays readable |
| Scenarios.WriteErrorIsReported | native/laughter_nif/src/rewriter.rs:221-224 | a failed write is reported as that error, once, and the output stays empty |
| Scenarios.RespondWithoutHandlers | native/laughter_nif/src/rewriter.rs:314-319 | with no handler registered, a response fails with "response channel closed" |
| Scenarios.EncodingIsTakenOnce | native/laughter_nif/src/rewriter.rs:121-127 | the first rewrite gets the configured encoding and the second UTF-8, both with the same handlers |
| Scenarios.RejectedSelectorPanics | native/laughter_nif/src/rewriter.rs:144 | a registered selector the parser rejects makes every rewrite raise `nif_panicked`, and the first has already used up the encoding |
| Scenarios.OneCharacterSelectorIsAccepted | native/laughter_nif/src/lib.rs:74-81 | a one-character selector other than whitespace, `#`, `.` or `[` is accepted |
| Scenarios.FilterIdsSkipRefused | native/laughter_nif/src/lib.rs:74-97 | a blank selector raises "The selector is empty." and draws no ID; the next two accepted selectors get 0 and 1 |
| Scenarios.ParseSendsInCallbackOrder | native/laughter_nif/src/lib.rs:130-160 | a parse sends the element message and the non-empty text message in callback order, each to its filter's process |
| Scenarios.DoneEndsEveryFilter | native/laughter_nif/src/lib.rs:244-268 | `done` sends one end notification per filter in order; a later `done` or `parse` fails with "rewriter already consumed" |
| Scenarios.DoneConsumesOnFailure | native/laughter_nif/src/lib.rs:252-257 | a failed end is reported and sends nothing, and the rewriter is consumed anyway |
| Scenarios.UnparsableFilterPanics | native/laughter_nif/src/lib.rs:130 | a selector that passes the selector check but that the parser rejects makes `create` raise `nif_panicked` |

## Left out

- `c_src/laughter_nif.c` is not part of this model. It is foreign-function glue, and its only logic builds an attribute list reversed and reverses it back.
- The `lol_html` parser itself is external. Tokenising, selector matching, serialisation and the memory limit (`max_memory`, which is stored but not enforced) are not modelled.
  - Its selector grammar is an input, `parses: string -> bool`. Building a handler for a selector it rejects panics, and the NIF then raises `nif_panicked`.
  - Parser callbacks are inputs: worker steps in the session, and a sequence of `Match` values in the buffered rewriter.
  - How a write or an end went is an `Outcome` input.
  - The output a pass produces is an input to `Finish`.
- Threads, `mpsc` channels, `Mutex`/`Arc` and the blocking `recv` are not modelled.
  - Each thread action is one atomic method, and the model does not fix the order in which worker and controller steps interleave.
  - A worker that is never answered blocks forever; that liveness behaviour is out of scope.
- Session.RewriterHandle.ResumeElement: with no response queued it returns `false` and changes nothing, where the source blocks in `recv`.
- Session.RewriterHandle.ResumeText: with no response queued it returns `false` and changes nothing, where the source blocks in `recv`.
- The callback errors `request send failed` and `response recv failed` are not modelled. They need the handle to be dropped while the worker runs, and the handle's lifetime is not modelled.
- "lock poisoned" errors from `filter`, `create`, `parse`, `done` and `send_messages` are not modelled. In `filter` such an error would come after the counter has already advanced.
- Session.Write: a panic while building handlers happens with the handler lock held, which poisons it. Every later `on_element` or `on_text` on that configuration then still draws an ID from the counter (`rewriter.rs:90`, `:101`) and panics on the poisoned lock (`rewriter.rs:91`, `:102`), raising `nif_panicked`; every later rewrite raises `nif_panicked` when it takes the lock (`rewriter.rs:121`). The model records the first panic and keeps the registrations, but not the poisoned lock, so later registrations and rewrites on that configuration behave as before it.
- Buffered.Create: the same holds for the builder's selector lock when `create` panics. Later `filter` and `create` calls on that builder fail with "lock poisoned", which the model does not record.
- The `encoding_rs` label lookup is a parameter: what it found, as an `Option<Encoding>`. The UTF-8 check of `create`'s encoding argument is a parameter too, `Buffered.EncodingArg`, which carries the decoder's message when the bytes are not UTF-8.
- Buffered.Rewriter.Parse: the external parser refuses any write or end after a write that failed (it asserts that it is not poisoned), so in the source a `parse` or `done` after a failed `parse` raises `nif_panicked` while holding the `inner` lock, and every call after that returns "lock poisoned". The model lets a later `parse` proceed, and sends the messages queued before the failure with its own.
- Buffered.Rewriter.Done: after a failed `parse`, the source's `done` raises `nif_panicked` in the same way and poisons the `inner` lock; the model lets the end proceed as its `end` outcome says.
- Rustler term encoding and atoms are not modelled. A sent term is an `Envelope` datatype, and `env.send` failures are ignored, as the source ignores them.
- Handlers.HandlerCounter.FetchAdd: the counter is unbounded, so the `u64` wrap-around after 2^64 registrations is not modelled.
- Selectors.FilterCounter.FetchAdd: the counter is unbounded, so the `u64` wrap-around after 2^64 registrations is not modelled.
- Attribute values and tag names are whatever the parser reports. Their order and their case normalisation are not modelled.
- Where the behaviour described for the project differs from the code, the model follows the code:
  - **Polling after completion.** `check_result` takes the result with `try_recv`, so a poll after the one that reported done or an error returns pending, not done again. Only the output buffer keeps the result (Session.TerminalIsReportedOnce).
  - **Registration does not refuse degenerate selectors.** `on_element` and `on_text` accept any selector, including `""`, `#`, `.` and `[` (`rewriter.rs:89-108`). Only the buffered rewriter's `filter` checks selectors. A selector the parser rejects surfaces when a rewrite starts, as a `nif_panicked` exception after the encoding was taken (Session.Write, Scenarios.RejectedSelectorPanics).
  - **The handler list is not drained.** Starting a rewrite leaves a configuration's handler registrations in place; only the encoding is taken. A second rewrite on the same configuration therefore sees the same handlers and UTF-8 (Scenarios.EncodingIsTakenOnce).
