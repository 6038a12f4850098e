/** Whole sessions driven step by step through the model, each ending in
    what a caller observes. */
module Scenarios {
  import opened Base
  import opened Mutations
  import opened Handlers
  import opened Session
  import opened Selectors
  import opened Buffered

  /** A fresh configuration with one handler on `selector`, of the given
      kind, drawn first from a fresh counter. */
  method OneHandlerConfig(selector: string, kind: HandlerType, found: Option<Encoding>) returns (config: RewriterConfig)
    ensures fresh(config)
    ensures config.handlers == [HandlerConfig(FirstHandlerId, selector, kind)]
    ensures config.encoding == Some(ResolveEncoding(found))
  {
    var counter := new HandlerCounter();
    config := new RewriterConfig(found, 1024);
    assert IssuedBefore(HandlerIds(config.handlers), counter.next);
    var id;
    if kind == ElementType {
      id := config.OnElement(counter, selector);
    } else {
      id := config.OnText(counter, selector);
    }
  }

  /** A fresh rewrite on a configuration with one handler on `selector`,
      of the given kind, drawn first from a fresh counter; `parses` is the
      external parser's selector grammar. */
  method OneHandlerSession(selector: string, kind: HandlerType, parses: string -> bool) returns (h: RewriterHandle)
    requires parses(selector)
    ensures fresh(h) && h.Valid()
    ensures h.handlers == [if kind == ElementType then ElementHandler(selector, FirstHandlerId)
                           else TextHandler(selector, FirstHandlerId)]
    ensures h.requests == [] && h.responses == [] && h.result.None? && h.output == []
    ensures h.workerRunning && !h.awaiting && h.sent == []
  {
    var config := OneHandlerConfig(selector, kind, None);
    assert AllSelectorsParse(config.handlers, parses);
    var r := Write(config, [], parses);
    h := r.value;
    assert ConfigOf(h.handlers[0]) == HandlerConfig(FirstHandlerId, selector, kind);
  }

  /** One element handler on `selector`, answered with
      `set_attribute(name, value)`: the controller first sees nothing, then
      the element's request; the element gets exactly that attribute set. */
  method SetAttributeSession(selector: string, parses: string -> bool, tag: string, name: string, value: string)
    returns (before: PollResult, first: PollResult, calls: seq<NodeCall>)
    requires parses(selector)
    ensures before == Pending
    ensures first == Incoming(ElementRequest(FirstHandlerId, tag, []))
    ensures calls == [SetAttributeCall(name, value)]
  {
    var h := OneHandlerSession(selector, ElementType, parses);
    before := h.Poll();
    assert h.workerRunning;
    h.ElementMatched(0, tag, []);
    first := h.Poll();
    assert h.ReceiverAlive() && h.responses == [];
    assert DecodeAll([("set_attribute", name, value)]) == [SetAttribute(name, value)];
    var sent := h.Respond([("set_attribute", name, value)]);
    assert h.responses == [[SetAttribute(name, value)]];
    var el := new Node();
    var resumed := h.ResumeElement(el);
    assert ElementCalls([SetAttribute(name, value)]) == [SetAttributeCall(name, value)];
    calls := el.calls;
  }

  /** An empty text chunk that is not the last of its node sends nothing:
      the callback does not suspend and the controller sees nothing. */
  method EmptyChunkIsNotReported(selector: string, parses: string -> bool) returns (suspended: bool, polled: PollResult)
    requires parses(selector)
    ensures !suspended && polled == Pending
  {
    var h := OneHandlerSession(selector, TextType, parses);
    suspended := h.TextMatched(0, "", false);
    polled := h.Poll();
  }

  /** One text handler: the final chunk of a node is reported; of the
      response `replace_text(replacement)`, `set_attribute(name, value)` only the
      replacement reaches the chunk. */
  method ReplaceTextSession(selector: string, parses: string -> bool, text: string, replacement: string,
                            name: string, value: string)
    returns (first: PollResult, calls: seq<NodeCall>)
    requires parses(selector)
    ensures first == Incoming(TextRequest(FirstHandlerId, text, true))
    ensures calls == [ReplaceCall(replacement, Text)]
  {
    var h := OneHandlerSession(selector, TextType, parses);
    var reported := h.TextMatched(0, text, true);
    assert h.requests == [TextRequest(FirstHandlerId, text, true)];
    first := h.Poll();
    assert h.ReceiverAlive() && h.responses == [] && h.awaiting;
    assert h.sent[|h.sent| - 1].TextRequest?;
    var triples := ReplaceAndSetAttribute(replacement, name, value);
    var sent := h.Respond(triples);
    assert h.responses == [[Replace(replacement, false), SetAttribute(name, value)]];
    var chunk := new Node();
    var resumed := h.ResumeText(chunk);
    OnlyReplacementReachesText(replacement, name, value);
    calls := chunk.calls;
  }

  /** The response `replace_text(replacement)`, `set_attribute(name, value)`. */
  function ReplaceAndSetAttribute(replacement: string, name: string, value: string): (ts: seq<OpTriple>)
    ensures DecodeAll(ts) == [Replace(replacement, false), SetAttribute(name, value)]
  {
    var ts := [("replace_text", replacement, ""), ("set_attribute", name, value)];
    assert DecodeAll(ts)[1] == SetAttribute(name, value);
    ts
  }

  lemma OnlyReplacementReachesText(replacement: string, name: string, value: string)
    ensures TextCalls([Replace(replacement, false), SetAttribute(name, value)]) == [ReplaceCall(replacement, Text)]
  {
    var ms := [Replace(replacement, false), SetAttribute(name, value)];
    assert ms[1..] == [SetAttribute(name, value)];
    assert ms[1..][1..] == [];
    assert TextCalls(ms[1..]) == [];
    assert TextCall(ms[0]) == Some(ReplaceCall(replacement, Text));
  }

  /** A successful pass is reported as done exactly once; later polls find
      nothing, and the output stays readable. */
  method DoneIsReportedOnce(produced: seq<byte>, parses: string -> bool) returns (last: PollResult, again: PollResult, out: seq<byte>)
    ensures last == Done && again == Pending && out == produced
  {
    var config := new RewriterConfig(None, 1024);
    var written := Write(config, [], parses);
    var h := written.value;
    h.Finish(Pass, Pass, produced);
    last := h.Poll();
    again := h.Poll();
    out := h.Output();
  }

  /** A failed write is reported as an error, once, and leaves the output
      empty; end-of-input is never signalled. */
  method WriteErrorIsReported(writeError: string, parses: string -> bool) returns (last: PollResult, again: PollResult, out: seq<byte>)
    ensures last == Error(writeError) && again == Pending && out == []
  {
    var config := new RewriterConfig(None, 1024);
    var written := Write(config, [], parses);
    var h := written.value;
    h.Finish(Fail(writeError), Pass, []);
    last := h.Poll();
    again := h.Poll();
    out := h.Output();
  }

  /** With no handler registered nothing holds the response receiver, so a
      response fails at once even though the worker is still running. */
  method RespondWithoutHandlers(parses: string -> bool) returns (r: Outcome)
    ensures r == Fail(ResponseChannelClosed)
  {
    var config := new RewriterConfig(None, 1024);
    var written := Write(config, [], parses);
    var h := written.value;
    r := h.Respond([("remove", "", "")]);
  }

  /** The configured encoding goes to the first rewrite only; a second
      rewrite on the same configuration gets UTF-8, and both see the same
      handlers. */
  method EncodingIsTakenOnce(enc: Encoding, selector: string, parses: string -> bool)
    returns (first: Encoding, second: Encoding, sameHandlers: bool)
    requires enc.asciiCompatible && parses(selector)
    ensures first == enc && second == Utf8 && sameHandlers
  {
    var config := OneHandlerConfig(selector, ElementType, Some(enc));
    var id := FirstHandlerId;
    assert AllSelectorsParse(config.handlers, parses);
    var w1 := Write(config, [], parses);
    assert w1.Ok?;
    var h1 := w1.value;
    first := h1.encoding;
    assert h1.handlers == [ElementHandler(selector, id)] by {
      assert ConfigOf(h1.handlers[0]) == HandlerConfig(id, selector, ElementType);
    }
    var w2 := Write(config, [], parses);
    assert w2.Ok?;
    var h2 := w2.value;
    second := h2.encoding;
    assert h2.handlers == [ElementHandler(selector, id)] by {
      assert ConfigOf(h2.handlers[0]) == HandlerConfig(id, selector, ElementType);
    }
    sameHandlers := h1.handlers == h2.handlers;
  }

  /** A registered selector the external parser rejects makes every rewrite
      on the configuration panic; the first one has already used up the
      configured encoding. */
  method RejectedSelectorPanics(enc: Encoding, selector: string, parses: string -> bool)
    returns (first: Result<RewriterHandle>, second: Result<RewriterHandle>, left: Option<Encoding>)
    requires !parses(selector)
    ensures first == Raised(NifPanicked) && second == Raised(NifPanicked) && left == None
  {
    var config := OneHandlerConfig(selector, ElementType, Some(enc));
    assert config.handlers[0].selector == selector;
    first := Write(config, [], parses);
    left := config.encoding;
    second := Write(config, [], parses);
  }

  lemma BlankSelectorIsRefused()
    ensures CheckSelector(" \t").Fail?
  {
    assert AllWhitespace(" \t");
  }

  /** A blank selector is refused without drawing an ID; the accepted ones
      get 0 and 1, in registration order. */
  method FilterIdsSkipRefused(p: Pid, s0: string, s1: string)
    returns (refused: Result<nat>, id0: Result<nat>, id1: Result<nat>)
    requires CheckSelector(s0).Pass? && CheckSelector(s1).Pass?
    ensures refused == Raised(EmptySelectorError)
    ensures id0 == Ok(0) && id1 == Ok(1)
  {
    var counter := new FilterCounter();
    var builder := new RewriterBuilder();
    BlankSelectorIsRefused();
    refused := builder.Filter(counter, p, " \t", false);
    assert refused.Raised? && counter.next == 0 && builder.selectors == [];
    id0 := builder.Filter(counter, p, s0, false);
    assert id0 == Ok(0) && counter.next == 1;
    id1 := builder.Filter(counter, p, s1, true);
  }

  /** The handlers and the end notifications of two filters, the second
      also asking for text. */
  lemma TwoFilterHandlers(p0: Pid, p1: Pid, s0: string, s1: string)
    ensures var cs := [SelectorConfig(0, s0, p0, false), SelectorConfig(1, s1, p1, true)];
            && FilterHandlersFor(cs) == [ElementFilter(s0, 0, p0), ElementFilter(s1, 1, p1), TextFilter(s1, 1, p1)]
            && FiltersOf(cs) == [(0, p0), (1, p1)]
            && EndNotices(FiltersOf(cs)) == [Envelope(p0, End(0)), Envelope(p1, End(1))]
  {
    var cs := [SelectorConfig(0, s0, p0, false), SelectorConfig(1, s1, p1, true)];
    assert cs[..|cs| - 1] == [cs[0]] && [cs[0]][..0] == [];
    assert FilterHandlersFor([cs[0]]) == [ElementFilter(s0, 0, p0)];
    assert FiltersOf(cs) == [(0, p0), (1, p1)];
  }

  /** What those two filters queue and send for an element of the first and
      two text chunks of the second, the first of them empty. */
  lemma TwoFilterTraffic(p0: Pid, p1: Pid, s0: string, s1: string, tag: string, text: string)
    requires text != []
    ensures var hs := [ElementFilter(s0, 0, p0), ElementFilter(s1, 1, p1), TextFilter(s1, 1, p1)];
            var ms := [ElementMatch(0, tag, []), TextMatch(2, ""), TextMatch(2, text)];
            && AllFit(hs, ms)
            && Envelopes(Queued(hs, ms))
               == [Envelope(p0, Deliver(ElementMessage(0, tag, []))), Envelope(p1, Deliver(TextMessage(1, text)))]
  {
    var hs := [ElementFilter(s0, 0, p0), ElementFilter(s1, 1, p1), TextFilter(s1, 1, p1)];
    var ms := [ElementMatch(0, tag, []), TextMatch(2, ""), TextMatch(2, text)];
    assert AllFit(hs, ms);
    assert ms[1..][1..][1..] == [];
    assert Queued(hs, ms[1..][1..]) == [(p1, TextMessage(1, text))];
    assert Queued(hs, ms[1..]) == [(p1, TextMessage(1, text))];
    assert Queued(hs, ms) == [(p0, ElementMessage(0, tag, [])), (p1, TextMessage(1, text))];
  }

  /** A selector of one character other than whitespace, `#`, `.` or `[`
      passes the selector check. */
  lemma OneCharacterSelectorIsAccepted(c: char)
    requires !IsWhitespace(c) && c != '#' && c != '.' && c != '['
    ensures CheckSelector([c]).Pass?
  {
    assert !AllWhitespace([c]) by {
      assert !IsWhitespace([c][0]);
    }
    assert [c] != "#" && [c] != "." && [c] != "[" by {
      assert "#"[0] == '#' && "."[0] == '.' && "["[0] == '[';
    }
  }

  /** A builder holding two accepted filters, the second also asking for
      text. */
  method TwoFilters(p0: Pid, p1: Pid, s0: string, s1: string) returns (builder: RewriterBuilder)
    requires CheckSelector(s0).Pass? && CheckSelector(s1).Pass?
    ensures fresh(builder)
    ensures builder.selectors == [SelectorConfig(0, s0, p0, false), SelectorConfig(1, s1, p1, true)]
  {
    var counter := new FilterCounter();
    builder := new RewriterBuilder();
    assert FilterIds(builder.selectors) == [] && IssuedBefore([], counter.next);
    var id0 := builder.Filter(counter, p0, s0, false);
    assert id0 == Ok(0) && counter.next == 1;
    ghost var first := builder.selectors;
    var id1 := builder.Filter(counter, p1, s1, true);
    assert id1.Ok?;
    assert id1.value == 1;
    assert builder.selectors == first + [SelectorConfig(1, s1, p1, true)];
  }

  /** A fresh rewriter for two filters, the second also asking for text. */
  method TwoFilterRewriter(p0: Pid, p1: Pid, s0: string, s1: string, parses: string -> bool) returns (rw: Rewriter)
    requires CheckSelector(s0).Pass? && CheckSelector(s1).Pass? && parses(s0) && parses(s1)
    ensures fresh(rw)
    ensures rw.inner.Some?
    ensures rw.inner.value.handlers == [ElementFilter(s0, 0, p0), ElementFilter(s1, 1, p1), TextFilter(s1, 1, p1)]
    ensures rw.filters == [(0, p0), (1, p1)]
    ensures rw.messages == [] && rw.outbox == []
  {
    var builder := TwoFilters(p0, p1, s0, s1);
    TwoFilterHandlers(p0, p1, s0, s1);
    assert AllFiltersParse(builder.selectors, parses);
    var created := Create(builder, Label(None), 1024, parses);
    rw := created.value;
  }

  /** A parse sends the element and the non-empty text, in callback order,
      each to its filter's process; the empty chunk sends nothing. */
  method ParseSendsInCallbackOrder(p0: Pid, p1: Pid, s0: string, s1: string, parses: string -> bool,
                                   tag: string, text: string)
    returns (r: Outcome, sent: seq<Envelope>)
    requires CheckSelector(s0).Pass? && CheckSelector(s1).Pass? && parses(s0) && parses(s1) && text != []
    ensures r == Pass
    ensures sent == [Envelope(p0, Deliver(ElementMessage(0, tag, []))),
                     Envelope(p1, Deliver(TextMessage(1, text)))]
  {
    var rw := TwoFilterRewriter(p0, p1, s0, s1, parses);
    TwoFilterTraffic(p0, p1, s0, s1, tag, text);
    r := rw.Parse([ElementMatch(0, tag, []), TextMatch(2, ""), TextMatch(2, text)], Pass);
    sent := rw.outbox;
  }

  /** `done` sends one end notification per filter, in registration order;
      after it, `done` and `parse` find the rewriter consumed. */
  method DoneEndsEveryFilter(p0: Pid, p1: Pid, s0: string, s1: string, parses: string -> bool)
    returns (sent: seq<Envelope>, doneAgain: Outcome, parseAgain: Outcome)
    requires CheckSelector(s0).Pass? && CheckSelector(s1).Pass? && parses(s0) && parses(s1)
    ensures sent == [Envelope(p0, End(0)), Envelope(p1, End(1))]
    ensures doneAgain == Fail(AlreadyConsumed) && parseAgain == Fail(AlreadyConsumed)
  {
    var rw := TwoFilterRewriter(p0, p1, s0, s1, parses);
    assert Queued(rw.inner.value.handlers, []) == [];
    var r := rw.Done([], Pass);
    sent := rw.outbox;
    doneAgain := rw.Done([], Pass);
    parseAgain := rw.Parse([], Pass);
  }

  /** `done` consumes the rewriter even when ending fails: the error is
      reported, nothing is sent, and a second `done` finds it consumed. */
  method DoneConsumesOnFailure(selector: string, parses: string -> bool, endError: string)
    returns (first: Outcome, second: Outcome, sent: seq<Envelope>)
    requires CheckSelector(selector).Pass? && parses(selector)
    ensures first == Fail(endError) && second == Fail(AlreadyConsumed) && sent == []
  {
    var counter := new FilterCounter();
    var builder := new RewriterBuilder();
    var id := builder.Filter(counter, Pid(7), selector, true);
    assert AllFiltersParse(builder.selectors, parses);
    var created := Create(builder, Label(None), 1024, parses);
    var rw := created.value;
    first := rw.Done([], Fail(endError));
    second := rw.Done([], Pass);
    sent := rw.outbox;
  }

  /** A selector that passes the selector check but that the external
      parser rejects (such as `a[`) makes `create` panic. */
  method UnparsableFilterPanics(selector: string, parses: string -> bool) returns (r: Result<Rewriter>)
    requires CheckSelector(selector).Pass? && !parses(selector)
    ensures r == Raised(NifPanicked)
  {
    var counter := new FilterCounter();
    var builder := new RewriterBuilder();
    var id := builder.Filter(counter, Pid(7), selector, false);
    assert builder.selectors[0].selector == selector;
    r := Create(builder, Label(None), 1024, parses);
  }
}
