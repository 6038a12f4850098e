/** The handler registry of the polling rewriter: the process-wide handler
    counter, the configuration object that collects handler registrations,
    its one-shot encoding, and the content handlers a rewrite builds from
    the registrations. */
module Handlers {
  import opened Base

  /** The first ID the process-wide handler counter hands out. */
  const FirstHandlerId: nat := 1_000_000

  /** The process-wide handler counter. Element and text registrations on
      every configuration draw from this one counter. */
  class HandlerCounter {
    var next: nat

    constructor ()
      ensures next == FirstHandlerId
    {
      next := FirstHandlerId;
    }

    /** Returns the current value and advances the counter by one. */
    method FetchAdd() returns (id: nat)
      modifies this
      ensures id == old(next) && next == id + 1
    {
      id := next;
      next := next + 1;
    }
  }

  datatype HandlerType = ElementType | TextType

  datatype HandlerConfig = HandlerConfig(handlerId: nat, selector: string, handlerType: HandlerType)

  /** A character encoding the external parser may use. */
  datatype Encoding = Encoding(name: string, asciiCompatible: bool)

  const Utf8: Encoding := Encoding("UTF-8", true)

  /** The encoding a configuration uses, given what the label lookup found:
      an ASCII-compatible match, or UTF-8 when the label is unknown or names
      an encoding that is not ASCII-compatible. */
  function ResolveEncoding(found: Option<Encoding>): (e: Encoding)
    ensures e.asciiCompatible
    ensures e == Utf8 || Some(e) == found
    ensures found.Some? && found.value.asciiCompatible ==> e == found.value
  {
    if found.Some? && found.value.asciiCompatible then found.value else Utf8
  }

  /** The IDs of a list of registrations, in order. */
  function HandlerIds(hs: seq<HandlerConfig>): (ids: seq<nat>)
    ensures |ids| == |hs|
    ensures forall i :: 0 <= i < |hs| ==> ids[i] == hs[i].handlerId
  {
    if hs == [] then [] else HandlerIds(hs[..|hs| - 1]) + [hs[|hs| - 1].handlerId]
  }

  /** Registrations whose IDs were drawn in order have strictly increasing,
      hence pairwise distinct, IDs, all below the counter. */
  lemma HandlerIdsIncrease(hs: seq<HandlerConfig>, next: nat)
    requires IssuedBefore(HandlerIds(hs), next)
    ensures forall i, j :: 0 <= i < j < |hs| ==> hs[i].handlerId < hs[j].handlerId
    ensures forall i :: 0 <= i < |hs| ==> hs[i].handlerId < next
  {
    IssuedIdsIncrease(HandlerIds(hs), next);
  }

  /** The configuration object handlers are registered on. */
  class RewriterConfig {
    var handlers: seq<HandlerConfig>
    var encoding: Option<Encoding>
    const maxMemory: nat

    /** `rewriter_new`: no handlers yet; `found` is what the lookup of the
        encoding label found. */
    constructor (found: Option<Encoding>, maxMemory: nat)
      ensures handlers == [] && this.maxMemory == maxMemory
      ensures encoding == Some(ResolveEncoding(found))
    {
      handlers := [];
      encoding := Some(ResolveEncoding(found));
      this.maxMemory := maxMemory;
    }

    /** Registers an element handler for `selector` and returns its ID. */
    method OnElement(counter: HandlerCounter, selector: string) returns (id: nat)
      requires IssuedBefore(HandlerIds(handlers), counter.next)
      modifies this`handlers, counter
      ensures id == old(counter.next) && counter.next == id + 1
      ensures handlers == old(handlers) + [HandlerConfig(id, selector, ElementType)]
      ensures IssuedBefore(HandlerIds(handlers), counter.next)
    {
      id := counter.FetchAdd();
      AppendKeepsIssued(HandlerIds(handlers), id);
      assert (handlers + [HandlerConfig(id, selector, ElementType)])[..|handlers|] == handlers;
      handlers := handlers + [HandlerConfig(id, selector, ElementType)];
    }

    /** Registers a text handler for `selector` and returns its ID. */
    method OnText(counter: HandlerCounter, selector: string) returns (id: nat)
      requires IssuedBefore(HandlerIds(handlers), counter.next)
      modifies this`handlers, counter
      ensures id == old(counter.next) && counter.next == id + 1
      ensures handlers == old(handlers) + [HandlerConfig(id, selector, TextType)]
      ensures IssuedBefore(HandlerIds(handlers), counter.next)
    {
      id := counter.FetchAdd();
      AppendKeepsIssued(HandlerIds(handlers), id);
      assert (handlers + [HandlerConfig(id, selector, TextType)])[..|handlers|] == handlers;
      handlers := handlers + [HandlerConfig(id, selector, TextType)];
    }

    /** Takes the configured encoding out of the configuration: the first
        rewrite gets it, every later one falls back to UTF-8. */
    method TakeEncoding() returns (enc: Encoding)
      modifies this`encoding
      ensures encoding == None
      ensures enc == old(encoding).GetOr(Utf8)
    {
      enc := encoding.GetOr(Utf8);
      encoding := None;
    }
  }

  /** A handler as handed to the external parser: an element callback or a
      text callback for a selector, each reporting the registration's ID. */
  datatype ContentHandler =
    | ElementHandler(selector: string, handlerId: nat)
    | TextHandler(selector: string, handlerId: nat)

  /** The registration a content handler was built from. */
  function ConfigOf(h: ContentHandler): HandlerConfig {
    match h
    case ElementHandler(s, id) => HandlerConfig(id, s, ElementType)
    case TextHandler(s, id) => HandlerConfig(id, s, TextType)
  }

  /** Whether the external parser accepts every registered selector. */
  predicate AllSelectorsParse(hs: seq<HandlerConfig>, parses: string -> bool) {
    forall i :: 0 <= i < |hs| ==> parses(hs[i].selector)
  }

  /** Builds one content handler per registration, in registration order,
      each of the kind, selector and ID it was registered with. `parses` is
      the external parser's selector grammar: building a handler for a
      selector it rejects panics, and then no handler list is produced. */
  method BuildContentHandlers(hs: seq<HandlerConfig>, parses: string -> bool) returns (r: Option<seq<ContentHandler>>)
    ensures r.Some? <==> AllSelectorsParse(hs, parses)
    ensures r.Some? ==> |r.value| == |hs|
    ensures r.Some? ==> forall i :: 0 <= i < |hs| ==> ConfigOf(r.value[i]) == hs[i]
  {
    var chs := [];
    for i := 0 to |hs|
      invariant |chs| == i
      invariant forall k :: 0 <= k < i ==> parses(hs[k].selector) && ConfigOf(chs[k]) == hs[k]
    {
      var h := hs[i];
      if !parses(h.selector) {
        return None;
      }
      match h.handlerType
      case ElementType =>
        chs := chs + [ElementHandler(h.selector, h.handlerId)];
      case TextType =>
        chs := chs + [TextHandler(h.selector, h.handlerId)];
    }
    r := Some(chs);
  }
}
