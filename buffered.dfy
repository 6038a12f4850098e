/** The buffered rewriter: created from a builder's filters, it queues a
    message per element and per non-empty text chunk its handlers see while
    the external parser writes or ends, and sends the queue to the filters'
    processes in order once each call succeeds. `done` consumes the parser;
    after it every `parse` or `done` fails. */
module Buffered {
  import opened Base
  import opened Handlers
  import opened Selectors

  datatype Message =
    | ElementMessage(filterId: nat, tag: string, attrs: seq<(string, string)>)
    | TextMessage(filterId: nat, content: string)

  /** A term sent to a filter's process: a queued message, or the end of the
      document for that filter. */
  datatype Notice = Deliver(message: Message) | End(filterId: nat)

  datatype Envelope = Envelope(to: Pid, notice: Notice)

  /** A handler as handed to the external parser. */
  datatype FilterHandler =
    | ElementFilter(selector: string, filterId: nat, pid: Pid)
    | TextFilter(selector: string, filterId: nat, pid: Pid)

  /** The handlers one filter contributes: an element handler, followed by a
      text handler when the filter asked for text. */
  function HandlersFor(c: SelectorConfig): seq<FilterHandler> {
    [ElementFilter(c.selector, c.filterId, c.pid)]
    + if c.sendText then [TextFilter(c.selector, c.filterId, c.pid)] else []
  }

  /** The handlers of all filters, in registration order. */
  function FilterHandlersFor(cs: seq<SelectorConfig>): seq<FilterHandler> {
    if cs == [] then [] else FilterHandlersFor(cs[..|cs| - 1]) + HandlersFor(cs[|cs| - 1])
  }

  /** The element handlers of a handler list, in order. */
  function ElementFilters(hs: seq<FilterHandler>): seq<FilterHandler> {
    if hs == [] then []
    else ElementFilters(hs[..|hs| - 1]) + if hs[|hs| - 1].ElementFilter? then [hs[|hs| - 1]] else []
  }

  /** The text handlers of a handler list, in order. */
  function TextFilters(hs: seq<FilterHandler>): seq<FilterHandler> {
    if hs == [] then []
    else TextFilters(hs[..|hs| - 1]) + if hs[|hs| - 1].TextFilter? then [hs[|hs| - 1]] else []
  }

  /** The filters that asked for text, in registration order. */
  function TextSenders(cs: seq<SelectorConfig>): (ss: seq<SelectorConfig>)
    ensures |ss| <= |cs|
    ensures forall c :: c in ss <==> c in cs && c.sendText
  {
    if cs == [] then []
    else
      assert cs == cs[..|cs| - 1] + [cs[|cs| - 1]];
      TextSenders(cs[..|cs| - 1]) + if cs[|cs| - 1].sendText then [cs[|cs| - 1]] else []
  }

  lemma {:induction false} ElementFiltersAppend(a: seq<FilterHandler>, b: seq<FilterHandler>)
    ensures ElementFilters(a + b) == ElementFilters(a) + ElementFilters(b)
    decreases |b|
  {
    if b == [] {
      assert a + b == a;
    } else {
      assert (a + b)[..|a + b| - 1] == a + b[..|b| - 1];
      ElementFiltersAppend(a, b[..|b| - 1]);
    }
  }

  lemma {:induction false} TextFiltersAppend(a: seq<FilterHandler>, b: seq<FilterHandler>)
    ensures TextFilters(a + b) == TextFilters(a) + TextFilters(b)
    decreases |b|
  {
    if b == [] {
      assert a + b == a;
    } else {
      assert (a + b)[..|a + b| - 1] == a + b[..|b| - 1];
      TextFiltersAppend(a, b[..|b| - 1]);
    }
  }

  /** One filter contributes its element handler and, if it asked for
      text, its text handler. */
  lemma ElementFiltersOfOne(c: SelectorConfig)
    ensures ElementFilters(HandlersFor(c)) == [ElementFilter(c.selector, c.filterId, c.pid)]
  {
    var hc := HandlersFor(c);
    if c.sendText {
      assert hc[..1] == [ElementFilter(c.selector, c.filterId, c.pid)];
      assert ElementFilters(hc[..1]) == ElementFilters([]) + [hc[0]];
    } else {
      assert hc[..0] == [];
    }
  }

  lemma TextFiltersOfOne(c: SelectorConfig)
    ensures TextFilters(HandlersFor(c)) == if c.sendText then [TextFilter(c.selector, c.filterId, c.pid)] else []
  {
    var hc := HandlersFor(c);
    if c.sendText {
      assert hc[..1] == [ElementFilter(c.selector, c.filterId, c.pid)];
      assert TextFilters(hc[..1]) == TextFilters([]) + [];
    } else {
      assert hc[..0] == [];
    }
  }

  /** The handler list has exactly one element handler per filter, in
      registration order and with that filter's selector, ID and process. */
  lemma {:induction false} ElementHandlersShape(cs: seq<SelectorConfig>)
    ensures var es := ElementFilters(FilterHandlersFor(cs));
      && |es| == |cs|
      && (forall i :: 0 <= i < |cs| ==> es[i] == ElementFilter(cs[i].selector, cs[i].filterId, cs[i].pid))
  {
    if cs != [] {
      var init, c := cs[..|cs| - 1], cs[|cs| - 1];
      ElementHandlersShape(init);
      assert FilterHandlersFor(cs) == FilterHandlersFor(init) + HandlersFor(c);
      ElementFiltersAppend(FilterHandlersFor(init), HandlersFor(c));
      ElementFiltersOfOne(c);
      assert ElementFilters(FilterHandlersFor(cs))
          == ElementFilters(FilterHandlersFor(init)) + [ElementFilter(c.selector, c.filterId, c.pid)];
    }
  }

  /** The handler list has exactly one text handler per filter that asked
      for text, in registration order and with that filter's selector, ID
      and process. */
  lemma {:induction false} TextHandlersShape(cs: seq<SelectorConfig>)
    ensures var ts, ss := TextFilters(FilterHandlersFor(cs)), TextSenders(cs);
      && |ts| == |ss|
      && (forall i :: 0 <= i < |ss| ==> ts[i] == TextFilter(ss[i].selector, ss[i].filterId, ss[i].pid))
  {
    if cs != [] {
      var init, c := cs[..|cs| - 1], cs[|cs| - 1];
      TextHandlersShape(init);
      assert FilterHandlersFor(cs) == FilterHandlersFor(init) + HandlersFor(c);
      TextFiltersAppend(FilterHandlersFor(init), HandlersFor(c));
      TextFiltersOfOne(c);
      assert TextFilters(FilterHandlersFor(cs)) == TextFilters(FilterHandlersFor(init)) + TextFilters(HandlersFor(c));
      assert TextSenders(cs) == TextSenders(init) + if c.sendText then [c] else [];
    }
  }

  /** The `(filter ID, process)` pairs a rewriter notifies at the end. */
  function FiltersOf(cs: seq<SelectorConfig>): (fs: seq<(nat, Pid)>)
    ensures |fs| == |cs|
    ensures forall i :: 0 <= i < |cs| ==> fs[i] == (cs[i].filterId, cs[i].pid)
  {
    if cs == [] then [] else [(cs[0].filterId, cs[0].pid)] + FiltersOf(cs[1..])
  }

  /** Whether the external parser accepts every filter's selector. */
  predicate AllFiltersParse(cs: seq<SelectorConfig>, parses: string -> bool) {
    forall i :: 0 <= i < |cs| ==> parses(cs[i].selector)
  }

  /** Builds the handler list of `create`, filter by filter. `parses` is the
      external parser's selector grammar: building a handler for a selector
      it rejects panics, and then no handler list is produced. */
  method BuildFilterHandlers(cs: seq<SelectorConfig>, parses: string -> bool) returns (r: Option<seq<FilterHandler>>)
    ensures r.Some? <==> AllFiltersParse(cs, parses)
    ensures r.Some? ==> r.value == FilterHandlersFor(cs)
  {
    var hs := [];
    for i := 0 to |cs|
      invariant hs == FilterHandlersFor(cs[..i])
      invariant forall k :: 0 <= k < i ==> parses(cs[k].selector)
    {
      var c := cs[i];
      if !parses(c.selector) {
        return None;
      }
      hs := hs + [ElementFilter(c.selector, c.filterId, c.pid)];
      if c.sendText {
        hs := hs + [TextFilter(c.selector, c.filterId, c.pid)];
      }
      assert cs[..i + 1][..i] == cs[..i];
    }
    assert cs[..|cs|] == cs;
    r := Some(hs);
  }

  // ---------------------------------------------------------------------
  // Callbacks

  /** One callback the external parser makes while writing or ending:
      handler `index` fired on an element or on a text chunk. */
  datatype Match =
    | ElementMatch(index: nat, tag: string, attrs: seq<(string, string)>)
    | TextMatch(index: nat, content: string)

  /** The parser calls a registered handler on a node of its kind. */
  predicate Fits(hs: seq<FilterHandler>, m: Match) {
    m.index < |hs| && (m.ElementMatch? <==> hs[m.index].ElementFilter?)
  }

  predicate AllFit(hs: seq<FilterHandler>, ms: seq<Match>) {
    forall i :: 0 <= i < |ms| ==> Fits(hs, ms[i])
  }

  /** What one callback queues: every element, and every text chunk with
      content, addressed to the filter's process. */
  function QueuedBy(hs: seq<FilterHandler>, m: Match): (q: seq<(Pid, Message)>)
    requires Fits(hs, m)
    ensures |q| <= 1
    ensures q == [] <==> m.TextMatch? && m.content == []
    ensures q != [] ==> && q[0].0 == hs[m.index].pid && q[0].1.filterId == hs[m.index].filterId
                        && (q[0].1.ElementMessage? <==> m.ElementMatch?)
  {
    var h := hs[m.index];
    match m
    case ElementMatch(_, tag, attrs) => [(h.pid, ElementMessage(h.filterId, tag, attrs))]
    case TextMatch(_, content) => if content == [] then [] else [(h.pid, TextMessage(h.filterId, content))]
  }

  /** What a run of callbacks queues, in callback order. */
  function Queued(hs: seq<FilterHandler>, ms: seq<Match>): (q: seq<(Pid, Message)>)
    requires AllFit(hs, ms)
    ensures |q| <= |ms|
    ensures (forall i :: 0 <= i < |ms| ==> ms[i].ElementMatch?) ==> |q| == |ms|
  {
    if ms == [] then [] else QueuedBy(hs, ms[0]) + Queued(hs, ms[1..])
  }

  /** No queued text message is empty, and every queued message comes from
      a registered handler of its own kind, addressed to that handler's
      process. */
  lemma {:induction false} QueuedMessagesAreWellFormed(hs: seq<FilterHandler>, ms: seq<Match>)
    requires AllFit(hs, ms)
    ensures forall e :: e in Queued(hs, ms) && e.1.TextMessage? ==> e.1.content != []
    ensures forall e :: e in Queued(hs, ms) ==> exists h :: h in hs && h.pid == e.0 && h.filterId == e.1.filterId && (h.ElementFilter? <==> e.1.ElementMessage?)
  {
    if ms != [] {
      QueuedMessagesAreWellFormed(hs, ms[1..]);
      var h := hs[ms[0].index];
      assert h in hs;
      forall e | e in QueuedBy(hs, ms[0])
        ensures exists h :: h in hs && h.pid == e.0 && h.filterId == e.1.filterId && (h.ElementFilter? <==> e.1.ElementMessage?)
      {
        assert h.pid == e.0 && h.filterId == e.1.filterId;
      }
    }
  }

  // ---------------------------------------------------------------------
  // Sending

  /** The terms sending a queue produces, in queue order. */
  function Envelopes(msgs: seq<(Pid, Message)>): (es: seq<Envelope>)
    ensures |es| == |msgs|
    ensures forall i :: 0 <= i < |msgs| ==> es[i] == Envelope(msgs[i].0, Deliver(msgs[i].1))
  {
    if msgs == [] then [] else Envelopes(msgs[..|msgs| - 1]) + [Envelope(msgs[|msgs| - 1].0, Deliver(msgs[|msgs| - 1].1))]
  }

  /** The end notifications, one per filter, in registration order. */
  function EndNotices(fs: seq<(nat, Pid)>): (es: seq<Envelope>)
    ensures |es| == |fs|
    ensures forall i :: 0 <= i < |fs| ==> es[i] == Envelope(fs[i].1, End(fs[i].0))
  {
    if fs == [] then [] else EndNotices(fs[..|fs| - 1]) + [Envelope(fs[|fs| - 1].1, End(fs[|fs| - 1].0))]
  }

  const AlreadyConsumed: string := "rewriter already consumed"

  /** The external parser with its handlers and settings. */
  datatype Parser = Parser(handlers: seq<FilterHandler>, encoding: Encoding, maxMemory: nat)

  class Rewriter {
    var inner: Option<Parser>
    var messages: seq<(Pid, Message)>
    const filters: seq<(nat, Pid)>
    /** Every term sent to a process so far, in sending order. */
    var outbox: seq<Envelope>

    constructor (parser: Parser, filters: seq<(nat, Pid)>)
      ensures inner == Some(parser) && this.filters == filters
      ensures messages == [] && outbox == []
    {
      inner := Some(parser);
      this.filters := filters;
      messages := [];
      outbox := [];
    }

    /** Sends every queued message to its process, oldest first, and
        leaves the queue empty. */
    method SendMessages()
      modifies this`messages, this`outbox
      ensures messages == []
      ensures outbox == old(outbox) + Envelopes(old(messages))
    {
      var drained := messages;
      for i := 0 to |drained|
        invariant outbox == old(outbox) + Envelopes(drained[..i])
      {
        outbox := outbox + [Envelope(drained[i].0, Deliver(drained[i].1))];
        assert drained[..i + 1][..i] == drained[..i];
      }
      assert drained[..|drained|] == drained;
      messages := [];
    }

    /** Sends the end notification to every filter, in registration order. */
    method SendEndNotices()
      modifies this`outbox
      ensures outbox == old(outbox) + EndNotices(filters)
    {
      for i := 0 to |filters|
        invariant outbox == old(outbox) + EndNotices(filters[..i])
      {
        outbox := outbox + [Envelope(filters[i].1, End(filters[i].0))];
        assert filters[..i + 1][..i] == filters[..i];
      }
      assert filters[..|filters|] == filters;
    }

    /** Feeds a chunk of input to the parser; `fired` are the callbacks the
        parser makes while writing it and `write` how the write went. A
        consumed rewriter fails at once; a failed write reports its error
        and leaves what the callbacks queued in the queue; a successful one
        sends the whole queue. */
    method Parse(fired: seq<Match>, write: Outcome) returns (r: Outcome)
      requires inner.Some? ==> AllFit(inner.value.handlers, fired)
      modifies this`messages, this`outbox
      ensures inner == old(inner)
      ensures old(inner).None? ==> r == Fail(AlreadyConsumed) && messages == old(messages) && outbox == old(outbox)
      ensures old(inner).Some? && write.Fail? ==>
        && r == write && outbox == old(outbox)
        && messages == old(messages) + Queued(inner.value.handlers, fired)
      ensures old(inner).Some? && write.Pass? ==>
        && r == Pass && messages == []
        && outbox == old(outbox) + Envelopes(old(messages) + Queued(inner.value.handlers, fired))
    {
      if inner.None? {
        return Fail(AlreadyConsumed);
      }
      messages := messages + Queued(inner.value.handlers, fired);
      if write.Fail? {
        return write;
      }
      SendMessages();
      r := Pass;
    }

    /** Signals the end of input; `fired` are the callbacks the parser makes
        while flushing and `end` how it went. The parser is taken out first,
        so the rewriter is consumed whatever happens next. A failed end
        reports its error without sending anything; a successful one sends
        the whole queue and then one end notification per filter. */
    method Done(fired: seq<Match>, end: Outcome) returns (r: Outcome)
      requires inner.Some? ==> AllFit(inner.value.handlers, fired)
      modifies this`inner, this`messages, this`outbox
      ensures inner.None?
      ensures old(inner).None? ==> r == Fail(AlreadyConsumed) && messages == old(messages) && outbox == old(outbox)
      ensures old(inner).Some? && end.Fail? ==>
        && r == end && outbox == old(outbox)
        && messages == old(messages) + Queued(old(inner).value.handlers, fired)
      ensures old(inner).Some? && end.Pass? ==>
        && r == Pass && messages == []
        && outbox == old(outbox) + Envelopes(old(messages) + Queued(old(inner).value.handlers, fired)) + EndNotices(filters)
    {
      if inner.None? {
        return Fail(AlreadyConsumed);
      }
      var parser := inner.value;
      inner := None;
      messages := messages + Queued(parser.handlers, fired);
      if end.Fail? {
        return end;
      }
      SendMessages();
      SendEndNotices();
      r := Pass;
    }
  }

  /** The encoding argument of `create` read as UTF-8: the label lookup's
      finding when the bytes are UTF-8, else the decoder's error message. */
  datatype EncodingArg = Label(found: Option<Encoding>) | NotUtf8(error: string)

  /** `create`: `encodingArg` is the encoding argument read as UTF-8 (an
      error when it is not) and, if it is, what the label lookup found;
      `parses` is the external parser's selector grammar, and a filter whose
      selector it rejects makes the call panic. Otherwise the rewriter gets
      the builder's handlers in registration order and its filters'
      `(ID, process)` pairs; the builder is left as it was. */
  method Create(builder: RewriterBuilder, encodingArg: EncodingArg, maxMemory: nat, parses: string -> bool)
    returns (r: Result<Rewriter>)
    ensures encodingArg.NotUtf8? ==> r == Err(encodingArg.error)
    ensures encodingArg.Label? && !AllFiltersParse(builder.selectors, parses) ==> r == Raised(NifPanicked)
    ensures encodingArg.Label? && AllFiltersParse(builder.selectors, parses) ==> r.Ok? && fresh(r.value)
    ensures r.Ok? ==>
      && r.value.inner == Some(Parser(FilterHandlersFor(builder.selectors), ResolveEncoding(encodingArg.found), maxMemory))
      && r.value.filters == FiltersOf(builder.selectors)
      && r.value.messages == [] && r.value.outbox == []
  {
    if encodingArg.NotUtf8? {
      return Err(encodingArg.error);
    }
    var encoding := ResolveEncoding(encodingArg.found);
    var filters := FiltersOf(builder.selectors);
    var handlers := BuildFilterHandlers(builder.selectors, parses);
    if handlers.None? {
      return Raised(NifPanicked);
    }
    var rw := new Rewriter(Parser(handlers.value, encoding, maxMemory), filters);
    r := Ok(rw);
  }
}
