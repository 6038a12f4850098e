/** The polling rewrite session. A worker drives the external parser over
    the input; each time a registered handler fires it queues a request and
    suspends until the controller's response arrives, then applies that
    response to the live node. The controller polls the session handle for
    requests, answers them, and finally observes the worker's single result.

    Channels are sequences and every thread action is one atomic step: the
    controller's steps are Poll, Respond and Output; the worker's are
    ElementMatched, TextMatched, ResumeElement, ResumeText and Finish. */
module Session {
  import opened Base
  import opened Mutations
  import opened Handlers

  /** What the worker asks the controller about one matched node. */
  datatype Request =
    | ElementRequest(handlerId: nat, tag: string, attrs: seq<(string, string)>)
    | TextRequest(handlerId: nat, content: string, lastInTextNode: bool)

  /** The single outcome of a whole pass. */
  datatype WriteResult = WriteOk(output: seq<byte>) | WriteErr(reason: string)

  /** What one poll reports. */
  datatype PollResult = Incoming(request: Request) | Done | Error(reason: string) | Pending

  const ResponseChannelClosed: string := "response channel closed"

  // ---------------------------------------------------------------------
  // Text chunks

  /** The request a text callback sends for one chunk, if any. */
  function TextChunkRequest(handlerId: nat, content: string, last: bool): (r: Option<Request>)
    ensures r.None? <==> content == [] && !last
    ensures r.Some? ==> r.value == TextRequest(handlerId, content, last)
  {
    if content == [] && !last then None else Some(TextRequest(handlerId, content, last))
  }

  function RequestsOf(r: Option<Request>): seq<Request> {
    if r.Some? then [r.value] else []
  }

  /** The requests one text handler sends for the chunks of one text node,
      in order; only the final chunk is the last in its text node. */
  function ChunkRequests(handlerId: nat, chunks: seq<string>): (rs: seq<Request>)
    ensures |rs| <= |chunks|
    ensures forall i :: 0 <= i < |rs| ==> rs[i].TextRequest? && rs[i].handlerId == handlerId
  {
    if chunks == [] then []
    else RequestsOf(TextChunkRequest(handlerId, chunks[0], |chunks| == 1)) + ChunkRequests(handlerId, chunks[1..])
  }

  function Concat(ss: seq<string>): string {
    if ss == [] then [] else ss[0] + Concat(ss[1..])
  }

  function TextOf(rs: seq<Request>): string {
    if rs == [] then []
    else (if rs[0].TextRequest? then rs[0].content else []) + TextOf(rs[1..])
  }

  /** Suppressing empty chunks loses no text and never hides the end of a
      text node: the requests for a node's chunks carry all of its text, in
      order, the final request (and only it) is flagged last in its text
      node, and every other request has content. */
  lemma {:induction false} ChunkRequestsLoseNothing(handlerId: nat, chunks: seq<string>)
    requires chunks != []
    ensures var rs := ChunkRequests(handlerId, chunks);
      && rs != []
      && TextOf(rs) == Concat(chunks)
      && rs[|rs| - 1] == TextRequest(handlerId, chunks[|chunks| - 1], true)
      && (forall i :: 0 <= i < |rs| - 1 ==> rs[i].TextRequest? && !rs[i].lastInTextNode && rs[i].content != [])
  {
    var rs := ChunkRequests(handlerId, chunks);
    var head := RequestsOf(TextChunkRequest(handlerId, chunks[0], |chunks| == 1));
    if |chunks| == 1 {
      assert rs == head + [];
      assert Concat(chunks) == chunks[0] + [];
    } else {
      var tail := ChunkRequests(handlerId, chunks[1..]);
      ChunkRequestsLoseNothing(handlerId, chunks[1..]);
      assert rs == head + tail;
      TextOfAppend(head, tail);
      if head == [] {
        assert chunks[0] == [];
      } else {
        assert TextOf(head) == chunks[0] + [];
      }
      assert chunks[1..][|chunks[1..]| - 1] == chunks[|chunks| - 1];
      forall i | 0 <= i < |rs| - 1
        ensures rs[i].TextRequest? && !rs[i].lastInTextNode && rs[i].content != []
      {
        if i >= |head| {
          assert rs[i] == tail[i - |head|];
        }
      }
    }
  }

  lemma {:induction false} TextOfAppend(a: seq<Request>, b: seq<Request>)
    ensures TextOf(a + b) == TextOf(a) + TextOf(b)
  {
    if a == [] {
      assert a + b == b;
    } else {
      assert (a + b)[1..] == a[1..] + b;
      TextOfAppend(a[1..], b);
    }
  }

  // ---------------------------------------------------------------------
  // The worker's result

  /** The result the worker sends when the pass ends. A failed write yields
      its error and end-of-input is never signalled; otherwise a failed end
      yields its error; only when both succeed is the produced output sent. */
  function WorkerOutcome(write: Outcome, end: Outcome, produced: seq<byte>): (r: WriteResult)
    ensures r.WriteOk? <==> write.Pass? && end.Pass?
    ensures r.WriteOk? ==> r.output == produced
    ensures r.WriteErr? ==> r.reason == if write.Fail? then write.error else end.error
  {
    if write.Fail? then WriteErr(write.error)
    else if end.Fail? then WriteErr(end.error)
    else WriteOk(produced)
  }

  // ---------------------------------------------------------------------
  // Polling

  /** The part of the session handle a poll reads and writes. */
  datatype PollView = PollView(requests: seq<Request>, result: Option<WriteResult>, output: seq<byte>)

  /** One poll. A queued request is taken first, without looking at the
      result. Otherwise a waiting result is taken: success stores its output
      and reports Done, failure reports its reason; with neither, Pending. */
  function PollStep(v: PollView): (p: (PollResult, PollView))
    ensures p.0.Incoming? <==> v.requests != []
    ensures p.0.Incoming? ==> v.requests == [p.0.request] + p.1.requests
                              && p.1.result == v.result && p.1.output == v.output
  {
    if v.requests != [] then
      (Incoming(v.requests[0]), v.(requests := v.requests[1..]))
    else
      match v.result
      case Some(WriteOk(out)) => (Done, v.(result := None, output := out))
      case Some(WriteErr(e)) => (Error(e), v.(result := None))
      case None => (Pending, v)
  }

  /** What a poll reports is terminal only once the request queue is empty
      and a result has arrived; the output changes only when a successful
      result is taken, and then becomes that result's output. */
  lemma PollReportsTerminalOnlyWhenDrained(v: PollView)
    ensures var (r, w) := PollStep(v);
      && ((r.Done? || r.Error?) <==> v.requests == [] && v.result.Some?)
      && (r.Done? <==> v.requests == [] && v.result.Some? && v.result.value.WriteOk?)
      && (r.Error? ==> v.result == Some(WriteErr(r.reason)) && w.output == v.output)
      && (w.output == v.output || (r.Done? && v.result == Some(WriteOk(w.output))))
      && (r.Done? ==> w.output == v.result.value.output && w.result.None?)
      && (r.Pending? <==> v.requests == [] && v.result.None?)
      && (r.Pending? ==> w == v)
  {
  }

  /** `k` successive polls. */
  function PollMany(v: PollView, k: nat): (seq<PollResult>, PollView)
    decreases k
  {
    if k == 0 then ([], v)
    else
      var (r, w) := PollStep(v);
      var (rs, u) := PollMany(w, k - 1);
      ([r] + rs, u)
  }

  function Incomings(rs: seq<Request>): (ps: seq<PollResult>)
    ensures |ps| == |rs|
    ensures forall i :: 0 <= i < |rs| ==> ps[i] == Incoming(rs[i])
  {
    if rs == [] then [] else [Incoming(rs[0])] + Incomings(rs[1..])
  }

  /** Polls hand out queued requests in the order they were queued, one per
      poll, and leave the result slot and the output alone while they do. */
  lemma {:induction false} PollDeliversInOrder(v: PollView, k: nat)
    requires k <= |v.requests|
    ensures PollMany(v, k) == (Incomings(v.requests[..k]), v.(requests := v.requests[k..]))
    decreases k
  {
    if k > 0 {
      var w := v.(requests := v.requests[1..]);
      PollDeliversInOrder(w, k - 1);
      assert w.requests[..k - 1] == v.requests[1..k];
      assert w.requests[k - 1..] == v.requests[k..];
      assert Incomings(v.requests[..k]) == [Incoming(v.requests[0])] + Incomings(v.requests[1..k]) by {
        assert v.requests[..k][1..] == v.requests[1..k];
      }
    }
  }

  /** The result is taken by exactly one poll: after it reports Done or
      Error, a further poll with no new request reports Pending and keeps
      the stored output. */
  lemma TerminalIsReportedOnce(v: PollView)
    requires (PollStep(v).0.Done? || PollStep(v).0.Error?)
    ensures var w := PollStep(v).1;
      w.result.None? && PollStep(w) == (Pending, w)
  {
  }

  // ---------------------------------------------------------------------
  // The session handle

  /** The registration a request claims to come from. */
  function Signature(r: Request): (nat, HandlerType) {
    match r
    case ElementRequest(id, _, _) => (id, ElementType)
    case TextRequest(id, _, _) => (id, TextType)
  }

  function Signatures(hs: seq<ContentHandler>): set<(nat, HandlerType)> {
    set h | h in hs :: (ConfigOf(h).handlerId, ConfigOf(h).handlerType)
  }

  class RewriterHandle {
    // The handle's side of the channels and its output buffer.
    var requests: seq<Request>
    var responses: seq<seq<Mutation>>
    var result: Option<WriteResult>
    var output: seq<byte>

    // The worker: its handlers, settings and input, and where it stands.
    const handlers: seq<ContentHandler>
    const encoding: Encoding
    const maxMemory: nat
    const input: seq<byte>
    var workerRunning: bool
    var awaiting: bool

    // History: every request sent and handed out, every response sent and
    // consumed, whether end-of-input was signalled, how many results were sent.
    ghost var sent: seq<Request>
    ghost var delivered: seq<Request>
    ghost var answered: seq<seq<Mutation>>
    ghost var consumed: seq<seq<Mutation>>
    ghost var endCalled: bool
    ghost var resultsSent: nat

    /** The protocol invariant: both channels are FIFO (what was sent is what
        was taken followed by what is queued); the worker has consumed one
        response per request except the one it may be waiting on; it waits
        only while running; it sends exactly one result, when it stops; and
        every request names a registered handler of its own kind. */
    ghost predicate Valid()
      reads this
    {
      && sent == delivered + requests
      && answered == consumed + responses
      && |consumed| + (if awaiting then 1 else 0) == |sent|
      && (awaiting ==> workerRunning)
      && (workerRunning ==> result.None? && resultsSent == 0 && !endCalled)
      && (!workerRunning ==> resultsSent == 1)
      && (forall r :: r in sent ==> Signature(r) in Signatures(handlers))
    }

    function View(): PollView
      reads this
    {
      PollView(requests, result, output)
    }

    /** Whether the worker still holds the response receiver. Only the
        handler callbacks keep it, so it is gone once the worker has ended,
        and gone from the start when no handler was registered. */
    predicate ReceiverAlive()
      reads this
    {
      workerRunning && |handlers| > 0
    }

    constructor Start(handlers: seq<ContentHandler>, encoding: Encoding, maxMemory: nat, input: seq<byte>)
      ensures Valid()
      ensures this.handlers == handlers && this.encoding == encoding
      ensures this.maxMemory == maxMemory && this.input == input
      ensures requests == [] && responses == [] && result.None? && output == []
      ensures workerRunning && !awaiting && sent == [] && answered == []
    {
      this.handlers := handlers;
      this.encoding := encoding;
      this.maxMemory := maxMemory;
      this.input := input;
      requests, responses, result, output := [], [], None, [];
      workerRunning, awaiting := true, false;
      sent, delivered, answered, consumed := [], [], [], [];
      endCalled, resultsSent := false, 0;
    }

    /** Controller: one non-blocking poll (see PollStep). */
    method Poll() returns (r: PollResult)
      requires Valid()
      modifies this`requests, this`result, this`output, this`delivered
      ensures Valid()
      ensures (r, View()) == PollStep(old(View()))
      ensures delivered == old(delivered) + if r.Incoming? then [r.request] else []
    {
      if requests != [] {
        r := Incoming(requests[0]);
        delivered := delivered + [requests[0]];
        requests := requests[1..];
      } else {
        match result
        case Some(WriteOk(out)) =>
          output := out;
          result := None;
          r := Done;
        case Some(WriteErr(e)) =>
          result := None;
          r := Error(e);
        case None =>
          r := Pending;
      }
    }

    /** Controller: decodes a response and queues it for the suspended
        callback; fails once the receiver is gone. */
    method Respond(triples: seq<OpTriple>) returns (r: Outcome)
      requires Valid()
      modifies this`responses, this`answered
      ensures Valid()
      ensures r == if ReceiverAlive() then Pass else Fail(ResponseChannelClosed)
      ensures responses == old(responses) + if r.Pass? then [DecodeAll(triples)] else []
      ensures answered == old(answered) + if r.Pass? then [DecodeAll(triples)] else []
    {
      var parsed := DecodeAll(triples);
      if ReceiverAlive() {
        responses := responses + [parsed];
        answered := answered + [parsed];
        r := Pass;
      } else {
        r := Fail(ResponseChannelClosed);
      }
    }

    /** Controller: a copy of the output buffer. */
    method Output() returns (out: seq<byte>)
      ensures out == output
    {
      out := output;
    }

    /** Worker: the element callback of handler `i` fires; it queues an
        Element request and suspends. */
    method ElementMatched(i: nat, tag: string, attrs: seq<(string, string)>)
      requires Valid() && workerRunning && !awaiting
      requires i < |handlers| && handlers[i].ElementHandler?
      modifies this`requests, this`sent, this`awaiting
      ensures Valid() && awaiting
      ensures requests == old(requests) + [ElementRequest(handlers[i].handlerId, tag, attrs)]
      ensures sent == old(sent) + [ElementRequest(handlers[i].handlerId, tag, attrs)]
    {
      var req := ElementRequest(handlers[i].handlerId, tag, attrs);
      assert Signature(req) == (ConfigOf(handlers[i]).handlerId, ConfigOf(handlers[i]).handlerType);
      requests := requests + [req];
      sent := sent + [req];
      awaiting := true;
    }

    /** Worker: the text callback of handler `i` fires on a chunk; it queues
        a Text request and suspends, unless the chunk is empty and not the
        last of its text node, in which case the parser just continues. */
    method TextMatched(i: nat, content: string, last: bool) returns (suspended: bool)
      requires Valid() && workerRunning && !awaiting
      requires i < |handlers| && handlers[i].TextHandler?
      modifies this`requests, this`sent, this`awaiting
      ensures Valid()
      ensures suspended == awaiting
      ensures suspended <==> TextChunkRequest(handlers[i].handlerId, content, last).Some?
      ensures requests == old(requests) + RequestsOf(TextChunkRequest(handlers[i].handlerId, content, last))
      ensures sent == old(sent) + RequestsOf(TextChunkRequest(handlers[i].handlerId, content, last))
    {
      if content == [] && !last {
        return false;
      }
      var req := TextRequest(handlers[i].handlerId, content, last);
      assert Signature(req) == (ConfigOf(handlers[i]).handlerId, ConfigOf(handlers[i]).handlerType);
      requests := requests + [req];
      sent := sent + [req];
      awaiting := true;
      suspended := true;
    }

    /** Worker: the suspended element callback takes the next response, if
        one has been sent, and applies its mutations to the element in order;
        with no response yet it stays suspended. */
    method ResumeElement(el: Node) returns (resumed: bool)
      requires Valid() && awaiting && sent[|sent| - 1].ElementRequest?
      modifies this`responses, this`consumed, this`awaiting, el
      ensures Valid()
      ensures resumed <==> old(responses) != []
      ensures resumed ==> && !awaiting && responses == old(responses)[1..]
                          && consumed == old(consumed) + [old(responses)[0]]
                          && el.calls == old(el.calls) + ElementCalls(old(responses)[0])
      ensures !resumed ==> unchanged(this) && el.calls == old(el.calls)
    {
      if responses == [] {
        return false;
      }
      var ms := responses[0];
      responses := responses[1..];
      consumed := consumed + [ms];
      awaiting := false;
      ApplyElementMutations(el, ms);
      resumed := true;
    }

    /** Worker: as ResumeElement, for a suspended text callback; only the
        mutations a text chunk supports have any effect. */
    method ResumeText(chunk: Node) returns (resumed: bool)
      requires Valid() && awaiting && sent[|sent| - 1].TextRequest?
      modifies this`responses, this`consumed, this`awaiting, chunk
      ensures Valid()
      ensures resumed <==> old(responses) != []
      ensures resumed ==> && !awaiting && responses == old(responses)[1..]
                          && consumed == old(consumed) + [old(responses)[0]]
                          && chunk.calls == old(chunk.calls) + TextCalls(old(responses)[0])
      ensures !resumed ==> unchanged(this) && chunk.calls == old(chunk.calls)
    {
      if responses == [] {
        return false;
      }
      var ms := responses[0];
      responses := responses[1..];
      consumed := consumed + [ms];
      awaiting := false;
      ApplyTextMutations(chunk, ms);
      resumed := true;
    }

    /** Worker: the pass is over. `write` is how writing the input went and
        `end` how signalling end-of-input would go; end-of-input is signalled
        only after a successful write. The worker sends its one result and
        stops, dropping the response receiver with its handlers. */
    method Finish(write: Outcome, end: Outcome, produced: seq<byte>)
      requires Valid() && workerRunning && !awaiting
      modifies this`result, this`workerRunning, this`endCalled, this`resultsSent
      ensures Valid() && !workerRunning && !ReceiverAlive()
      ensures result == Some(WorkerOutcome(write, end, produced))
      ensures endCalled <==> write.Pass?
      ensures resultsSent == 1
    {
      if write.Fail? {
        result := Some(WriteErr(write.error));
      } else {
        endCalled := true;
        if end.Fail? {
          result := Some(WriteErr(end.error));
        } else {
          result := Some(WriteOk(produced));
        }
      }
      resultsSent := 1;
      workerRunning := false;
    }
  }

  /** Starts a rewrite. The configuration's encoding is taken first, so a
      second rewrite on the same configuration uses UTF-8. Then a content
      handler is built for every registration, in order; `parses` is the
      external parser's selector grammar, and a selector it rejects makes
      the call panic, with the encoding already gone. Otherwise the result
      is a fresh handle whose channels and output are empty. The
      registrations stay in place either way. */
  method Write(config: RewriterConfig, data: seq<byte>, parses: string -> bool) returns (r: Result<RewriterHandle>)
    modifies config`encoding
    ensures config.encoding == None
    ensures r.Raised? <==> !AllSelectorsParse(config.handlers, parses)
    ensures r.Ok? <==> AllSelectorsParse(config.handlers, parses)
    ensures r.Raised? ==> r.error == NifPanicked
    ensures r.Ok? ==> var h := r.value;
      && fresh(h) && h.Valid()
      && h.encoding == old(config.encoding).GetOr(Utf8)
      && |h.handlers| == |config.handlers|
      && (forall i :: 0 <= i < |config.handlers| ==> ConfigOf(h.handlers[i]) == config.handlers[i])
      && h.maxMemory == config.maxMemory && h.input == data
      && h.requests == [] && h.responses == [] && h.result.None? && h.output == []
      && h.workerRunning && !h.awaiting && h.sent == [] && h.answered == []
  {
    var enc := config.TakeEncoding();
    var chs := BuildContentHandlers(config.handlers, parses);
    if chs.None? {
      return Raised(NifPanicked);
    }
    var h := new RewriterHandle.Start(chs.value, enc, config.maxMemory, data);
    r := Ok(h);
  }
}
