/** The edits a controller sends back for one request: their vocabulary,
    how the `(op, arg1, arg2)` string triples of a response decode into it,
    and how an element or a text chunk applies them. The live node of the
    external parser is abstract: its whole state is the list of editing
    calls made on it. */
module Mutations {
  import opened Base

  /** Whether inserted content is markup or text to be escaped. */
  datatype ContentType = Html | Text

  /** One requested edit; a content-carrying edit has an is-markup flag. */
  datatype Mutation =
    | SetAttribute(name: string, value: string)
    | RemoveAttribute(name: string)
    | Prepend(content: string, isHtml: bool)
    | Append(content: string, isHtml: bool)
    | Before(content: string, isHtml: bool)
    | After(content: string, isHtml: bool)
    | SetInnerContent(content: string, isHtml: bool)
    | Replace(content: string, isHtml: bool)
    | Remove
    | NoOp

  predicate CarriesContent(m: Mutation) {
    m.Prepend? || m.Append? || m.Before? || m.After? || m.SetInnerContent? || m.Replace?
  }

  /** The op names a response may use; any other name means "do nothing". */
  const KnownOps: set<string> := {
    "set_attribute", "remove_attribute",
    "prepend_html", "prepend_text", "append_html", "append_text",
    "before_html", "before_text", "after_html", "after_text",
    "set_inner_html", "set_inner_text", "replace_html", "replace_text",
    "remove"
  }

  predicate HasSuffix(s: string, suffix: string) {
    |suffix| <= |s| && s[|s| - |suffix|..] == suffix
  }

  /** One element of a response as the controller sends it. */
  type OpTriple = (string, string, string)

  /** Decodes one response triple. Only `set_attribute` uses the second
      argument; `*_html` ops insert markup and `*_text` ops insert text;
      an unknown op name is a no-op, never an error. */
  function Decode(op: string, arg1: string, arg2: string): (m: Mutation)
    ensures m.NoOp? <==> op !in KnownOps
    ensures m.SetAttribute? <==> op == "set_attribute"
    ensures m.SetAttribute? ==> m.name == arg1 && m.value == arg2
    ensures m.RemoveAttribute? <==> op == "remove_attribute"
    ensures m.RemoveAttribute? ==> m.name == arg1
    ensures m.Remove? <==> op == "remove"
    ensures CarriesContent(m) ==> m.content == arg1
  {
    match op
    case "set_attribute" => SetAttribute(arg1, arg2)
    case "remove_attribute" => RemoveAttribute(arg1)
    case "prepend_html" => Prepend(arg1, true)
    case "prepend_text" => Prepend(arg1, false)
    case "append_html" => Append(arg1, true)
    case "append_text" => Append(arg1, false)
    case "before_html" => Before(arg1, true)
    case "before_text" => Before(arg1, false)
    case "after_html" => After(arg1, true)
    case "after_text" => After(arg1, false)
    case "set_inner_html" => SetInnerContent(arg1, true)
    case "set_inner_text" => SetInnerContent(arg1, false)
    case "replace_html" => Replace(arg1, true)
    case "replace_text" => Replace(arg1, false)
    case "remove" => Remove
    case _ => NoOp
  }

  /** The content-carrying ops are exactly the known `*_html` and `*_text`
      names. */
  lemma DecodeContentOps(op: string, arg1: string, arg2: string)
    ensures CarriesContent(Decode(op, arg1, arg2)) <==>
            op in KnownOps && (HasSuffix(op, "_html") || HasSuffix(op, "_text"))
  {
    match op
    case "set_attribute" =>
    case "remove_attribute" =>
    case "prepend_html" =>
    case "prepend_text" =>
    case "append_html" =>
    case "append_text" =>
    case "before_html" =>
    case "before_text" =>
    case "after_html" =>
    case "after_text" =>
    case "set_inner_html" =>
    case "set_inner_text" =>
    case "replace_html" =>
    case "replace_text" =>
    case "remove" =>
    case _ =>
  }

  /** A content-carrying op inserts markup exactly when its name ends in
      `_html`. */
  lemma DecodeMarkupFlag(op: string, arg1: string, arg2: string)
    requires CarriesContent(Decode(op, arg1, arg2))
    ensures Decode(op, arg1, arg2).isHtml <==> HasSuffix(op, "_html")
  {
    match op
    case "set_attribute" =>
    case "remove_attribute" =>
    case "prepend_html" =>
    case "prepend_text" =>
    case "append_html" =>
    case "append_text" =>
    case "before_html" =>
    case "before_text" =>
    case "after_html" =>
    case "after_text" =>
    case "set_inner_html" =>
    case "set_inner_text" =>
    case "replace_html" =>
    case "replace_text" =>
    case "remove" =>
    case _ =>
  }

  /** The triple a controller sends to ask for `m`: the inverse of Decode. */
  function Encode(m: Mutation): (t: OpTriple)
    ensures Decode(t.0, t.1, t.2) == m
  {
    match m
    case SetAttribute(n, v) => ("set_attribute", n, v)
    case RemoveAttribute(n) => ("remove_attribute", n, "")
    case Prepend(c, h) => (if h then "prepend_html" else "prepend_text", c, "")
    case Append(c, h) => (if h then "append_html" else "append_text", c, "")
    case Before(c, h) => (if h then "before_html" else "before_text", c, "")
    case After(c, h) => (if h then "after_html" else "after_text", c, "")
    case SetInnerContent(c, h) => (if h then "set_inner_html" else "set_inner_text", c, "")
    case Replace(c, h) => (if h then "replace_html" else "replace_text", c, "")
    case Remove => ("remove", "", "")
    case NoOp => ("no_op", "", "")
  }

  /** Every known op name decodes to a mutation that encodes back to the
      same name, so no two known names mean the same edit. */
  lemma DecodeKnownOpRoundTrip(op: string, arg1: string, arg2: string)
    requires op in KnownOps
    ensures Encode(Decode(op, arg1, arg2)).0 == op
    ensures Decode(op, arg1, arg2).Remove? || Encode(Decode(op, arg1, arg2)).1 == arg1
  {
    match op
    case "set_attribute" =>
    case "remove_attribute" =>
    case "prepend_html" =>
    case "prepend_text" =>
    case "append_html" =>
    case "append_text" =>
    case "before_html" =>
    case "before_text" =>
    case "after_html" =>
    case "after_text" =>
    case "set_inner_html" =>
    case "set_inner_text" =>
    case "replace_html" =>
    case "replace_text" =>
    case "remove" =>
    case _ =>
  }

  /** A response decodes element by element: same length, same order. */
  function DecodeAll(ts: seq<OpTriple>): (ms: seq<Mutation>)
    ensures |ms| == |ts|
    ensures forall i :: 0 <= i < |ts| ==> ms[i] == Decode(ts[i].0, ts[i].1, ts[i].2)
  {
    if ts == [] then [] else [Decode(ts[0].0, ts[0].1, ts[0].2)] + DecodeAll(ts[1..])
  }

  /** Decoding a response built by encoding a list of mutations gives that
      list back. */
  lemma {:induction false} DecodeAllEncodeAll(ms: seq<Mutation>)
    ensures DecodeAll(EncodeAll(ms)) == ms
  {
    if ms != [] {
      DecodeAllEncodeAll(ms[1..]);
      assert EncodeAll(ms)[1..] == EncodeAll(ms[1..]);
    }
  }

  function EncodeAll(ms: seq<Mutation>): (ts: seq<OpTriple>)
    ensures |ts| == |ms|
  {
    if ms == [] then [] else [Encode(ms[0])] + EncodeAll(ms[1..])
  }

  // ---------------------------------------------------------------------
  // Applying mutations to a live node

  /** An editing call on the external parser's element or text chunk. */
  datatype NodeCall =
    | SetAttributeCall(name: string, value: string)
    | RemoveAttributeCall(name: string)
    | PrependCall(content: string, contentType: ContentType)
    | AppendCall(content: string, contentType: ContentType)
    | BeforeCall(content: string, contentType: ContentType)
    | AfterCall(content: string, contentType: ContentType)
    | SetInnerContentCall(content: string, contentType: ContentType)
    | ReplaceCall(content: string, contentType: ContentType)
    | RemoveCall

  /** The content type an edit is made with: markup exactly when the
      mutation's flag says so, otherwise plain text to be escaped. */
  function ContentTypeOf(isHtml: bool): (t: ContentType)
    ensures t == Html <==> isHtml
  {
    if isHtml then Html else Text
  }

  /** The mutation a call carries out: used to state that a call does
      exactly what was asked for. */
  function Requested(c: NodeCall): Mutation {
    match c
    case SetAttributeCall(n, v) => SetAttribute(n, v)
    case RemoveAttributeCall(n) => RemoveAttribute(n)
    case PrependCall(s, t) => Prepend(s, t == Html)
    case AppendCall(s, t) => Append(s, t == Html)
    case BeforeCall(s, t) => Before(s, t == Html)
    case AfterCall(s, t) => After(s, t == Html)
    case SetInnerContentCall(s, t) => SetInnerContent(s, t == Html)
    case ReplaceCall(s, t) => Replace(s, t == Html)
    case RemoveCall => Remove
  }

  /** The call an element makes for one mutation: every mutation but NoOp
      becomes exactly the call that carries it out. */
  function ElementCall(m: Mutation): (c: Option<NodeCall>)
    ensures c.None? <==> m.NoOp?
    ensures c.Some? ==> Requested(c.value) == m
  {
    match m
    case SetAttribute(n, v) => Some(SetAttributeCall(n, v))
    case RemoveAttribute(n) => Some(RemoveAttributeCall(n))
    case Prepend(s, h) => Some(PrependCall(s, ContentTypeOf(h)))
    case Append(s, h) => Some(AppendCall(s, ContentTypeOf(h)))
    case Before(s, h) => Some(BeforeCall(s, ContentTypeOf(h)))
    case After(s, h) => Some(AfterCall(s, ContentTypeOf(h)))
    case SetInnerContent(s, h) => Some(SetInnerContentCall(s, ContentTypeOf(h)))
    case Replace(s, h) => Some(ReplaceCall(s, ContentTypeOf(h)))
    case Remove => Some(RemoveCall)
    case NoOp => None
  }

  /** The mutations a text chunk supports. */
  predicate TextApplicable(m: Mutation) {
    m.Replace? || m.Before? || m.After? || m.Remove?
  }

  /** The call a text chunk makes for one mutation: only Replace, Before,
      After and Remove do anything, and those make the same call an
      element would; everything else is silently ignored. */
  function TextCall(m: Mutation): (c: Option<NodeCall>)
    ensures c.Some? <==> TextApplicable(m)
    ensures c.Some? ==> c == ElementCall(m)
  {
    match m
    case Replace(s, h) => Some(ReplaceCall(s, ContentTypeOf(h)))
    case Before(s, h) => Some(BeforeCall(s, ContentTypeOf(h)))
    case After(s, h) => Some(AfterCall(s, ContentTypeOf(h)))
    case Remove => Some(RemoveCall)
    case _ => None
  }

  function Calls(c: Option<NodeCall>): seq<NodeCall> {
    if c.Some? then [c.value] else []
  }

  /** The calls an element makes for a whole response, in response order. */
  function ElementCalls(ms: seq<Mutation>): seq<NodeCall> {
    if ms == [] then [] else Calls(ElementCall(ms[0])) + ElementCalls(ms[1..])
  }

  /** The calls a text chunk makes for a whole response, in response order. */
  function TextCalls(ms: seq<Mutation>): seq<NodeCall> {
    if ms == [] then [] else Calls(TextCall(ms[0])) + TextCalls(ms[1..])
  }

  /** The mutations of a response a text chunk acts on, in order. */
  function TextApplicableOnly(ms: seq<Mutation>): seq<Mutation> {
    if ms == [] then []
    else (if TextApplicable(ms[0]) then [ms[0]] else []) + TextApplicableOnly(ms[1..])
  }

  /** Applying `a` then `b` is applying `a + b`. */
  lemma {:induction false} ElementCallsAppend(a: seq<Mutation>, b: seq<Mutation>)
    ensures ElementCalls(a + b) == ElementCalls(a) + ElementCalls(b)
  {
    if a != [] {
      assert (a + b)[1..] == a[1..] + b;
      ElementCallsAppend(a[1..], b);
    } else {
      assert a + b == b;
    }
  }

  lemma {:induction false} TextCallsAppend(a: seq<Mutation>, b: seq<Mutation>)
    ensures TextCalls(a + b) == TextCalls(a) + TextCalls(b)
  {
    if a != [] {
      assert (a + b)[1..] == a[1..] + b;
      TextCallsAppend(a[1..], b);
    } else {
      assert a + b == b;
    }
  }

  /** A response leaves an element untouched exactly when it is empty or
      holds only no-ops. */
  lemma {:induction false} ElementUnchangedIffAllNoOps(ms: seq<Mutation>)
    ensures ElementCalls(ms) == [] <==> forall i :: 0 <= i < |ms| ==> ms[i].NoOp?
  {
    if ms != [] {
      ElementUnchangedIffAllNoOps(ms[1..]);
      assert forall i :: 1 <= i < |ms| ==> ms[i] == ms[1..][i - 1];
    }
  }

  /** A text chunk does to a response exactly what an element does to the
      part of it made of Replace, Before, After and Remove. */
  lemma {:induction false} TextCallsAreFilteredElementCalls(ms: seq<Mutation>)
    ensures TextCalls(ms) == ElementCalls(TextApplicableOnly(ms))
  {
    if ms != [] {
      TextCallsAreFilteredElementCalls(ms[1..]);
      var head := if TextApplicable(ms[0]) then [ms[0]] else [];
      ElementCallsAppend(head, TextApplicableOnly(ms[1..]));
      if TextApplicable(ms[0]) {
        assert ElementCalls(head) == Calls(ElementCall(ms[0])) + ElementCalls([]);
      } else {
        assert ElementCalls(head) == [];
      }
    }
  }

  /** A text chunk is left untouched exactly when no mutation of the
      response is one it supports. */
  lemma {:induction false} TextUnchangedIffNoneApplicable(ms: seq<Mutation>)
    ensures TextCalls(ms) == [] <==> forall i :: 0 <= i < |ms| ==> !TextApplicable(ms[i])
  {
    if ms != [] {
      TextUnchangedIffNoneApplicable(ms[1..]);
      assert forall i :: 1 <= i < |ms| ==> ms[i] == ms[1..][i - 1];
    }
  }

  /** A live element or text chunk of the external parser. */
  class Node {
    var calls: seq<NodeCall>

    constructor ()
      ensures calls == []
    {
      calls := [];
    }

    /** One editing call on the external node. */
    method Perform(c: NodeCall)
      modifies this
      ensures calls == old(calls) + [c]
    {
      calls := calls + [c];
    }
  }

  method ApplyElementMutation(el: Node, m: Mutation)
    modifies el
    ensures el.calls == old(el.calls) + ElementCalls([m])
  {
    var c := ElementCall(m);
    if c.Some? {
      el.Perform(c.value);
    }
  }

  method ApplyTextMutation(chunk: Node, m: Mutation)
    modifies chunk
    ensures chunk.calls == old(chunk.calls) + TextCalls([m])
  {
    var c := TextCall(m);
    if c.Some? {
      chunk.Perform(c.value);
    }
  }

  /** Applies a response to an element one mutation at a time, in order. */
  method ApplyElementMutations(el: Node, ms: seq<Mutation>)
    modifies el
    ensures el.calls == old(el.calls) + ElementCalls(ms)
  {
    for i := 0 to |ms|
      invariant el.calls == old(el.calls) + ElementCalls(ms[..i])
    {
      ApplyElementMutation(el, ms[i]);
      ElementCallsAppend(ms[..i], [ms[i]]);
      assert ms[..i + 1] == ms[..i] + [ms[i]];
    }
    assert ms[..|ms|] == ms;
  }

  /** Applies a response to a text chunk one mutation at a time, in order. */
  method ApplyTextMutations(chunk: Node, ms: seq<Mutation>)
    modifies chunk
    ensures chunk.calls == old(chunk.calls) + TextCalls(ms)
  {
    for i := 0 to |ms|
      invariant chunk.calls == old(chunk.calls) + TextCalls(ms[..i])
    {
      ApplyTextMutation(chunk, ms[i]);
      TextCallsAppend(ms[..i], [ms[i]]);
      assert ms[..i + 1] == ms[..i] + [ms[i]];
    }
    assert ms[..|ms|] == ms;
  }
}
