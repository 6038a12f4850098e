/** Filter registration of the buffered rewriter: selector validation, the
    process-wide filter counter and the builder that collects filters. A
    selector the external parser would fail on (empty, blank, or a bare `#`,
    `.` or `[`) is refused before any ID is drawn. */
module Selectors {
  import opened Base

  /** Rust's `char::is_whitespace`: the Unicode White_Space property. */
  predicate IsWhitespace(c: char) {
    || ('\t' <= c <= '\r')
    || c == ' '
    || c == '\U{0085}'
    || c == '\U{00A0}'
    || c == '\U{1680}'
    || ('\U{2000}' <= c <= '\U{200A}')
    || c == '\U{2028}'
    || c == '\U{2029}'
    || c == '\U{202F}'
    || c == '\U{205F}'
    || c == '\U{3000}'
  }

  predicate AllWhitespace(s: string) {
    forall i :: 0 <= i < |s| ==> IsWhitespace(s[i])
  }

  /** `s` without its leading whitespace. */
  function TrimStart(s: string): (r: string)
    ensures |r| <= |s| && r == s[|s| - |r|..]
    ensures AllWhitespace(s[..|s| - |r|])
    ensures r == [] || !IsWhitespace(r[0])
  {
    if s != [] && IsWhitespace(s[0]) then
      var r := TrimStart(s[1..]);
      assert s[..|s| - |r|] == [s[0]] + s[1..][..|s| - 1 - |r|];
      r
    else s
  }

  /** `s` without its trailing whitespace. */
  function TrimEnd(s: string): (r: string)
    ensures |r| <= |s| && r == s[..|r|]
    ensures AllWhitespace(s[|r|..])
    ensures r == [] || !IsWhitespace(r[|r| - 1])
  {
    if s != [] && IsWhitespace(s[|s| - 1]) then
      var r := TrimEnd(s[..|s| - 1]);
      assert s[|r|..] == s[..|s| - 1][|r|..] + [s[|s| - 1]];
      r
    else s
  }

  /** Rust's `str::trim`: `s` without its leading and trailing
      whitespace. */
  function Trim(s: string): (r: string)
    ensures |r| <= |s|
    ensures r == [] || (!IsWhitespace(r[0]) && !IsWhitespace(r[|r| - 1]))
  {
    var t := TrimStart(s);
    var r := TrimEnd(t);
    assert r != [] ==> r[0] == t[0];
    r
  }

  /** Trimming removes whitespace and nothing else: what is left is one
      contiguous slice of the selector with only whitespace around it. */
  lemma TrimRemovesOnlyWhitespace(s: string)
    ensures exists k :: 0 <= k <= |s| - |Trim(s)| && Trim(s) == s[k..k + |Trim(s)|]
                        && AllWhitespace(s[..k]) && AllWhitespace(s[k + |Trim(s)|..])
  {
    var t := TrimStart(s);
    var k := |s| - |t|;
    var r := TrimEnd(t);
    assert t == s[k..];
    assert r == s[k..k + |r|];
    assert s[k + |r|..] == t[|r|..];
    assert AllWhitespace(s[..k]) && AllWhitespace(s[k + |r|..]);
  }

  lemma {:induction false} TrimStartEmptyIffAllWhitespace(s: string)
    ensures TrimStart(s) == [] <==> AllWhitespace(s)
  {
    if s != [] {
      if IsWhitespace(s[0]) {
        TrimStartEmptyIffAllWhitespace(s[1..]);
        assert forall i :: 1 <= i < |s| ==> s[i] == s[1..][i - 1];
      }
    }
  }

  lemma {:induction false} TrimEndEmptyIffAllWhitespace(s: string)
    ensures TrimEnd(s) == [] <==> AllWhitespace(s)
  {
    if s != [] {
      if IsWhitespace(s[|s| - 1]) {
        TrimEndEmptyIffAllWhitespace(s[..|s| - 1]);
        assert forall i :: 0 <= i < |s| - 1 ==> s[i] == s[..|s| - 1][i];
      }
    }
  }

  /** A selector trims to nothing exactly when all its characters are
      whitespace (in particular when it is empty). */
  lemma TrimEmptyIffAllWhitespace(s: string)
    ensures Trim(s) == [] <==> AllWhitespace(s)
  {
    TrimStartEmptyIffAllWhitespace(s);
    var t := TrimStart(s);
    TrimEndEmptyIffAllWhitespace(t);
    if AllWhitespace(s) {
      assert t == [];
    } else if t != [] {
      assert !IsWhitespace(t[0]);
      assert !AllWhitespace(t);
    }
  }

  const EmptySelectorError: string := "The selector is empty."

  /** The selector check of `filter`. */
  function CheckSelector(selector: string): (r: Outcome)
    ensures r.Fail? ==> r.error == EmptySelectorError
    ensures r.Fail? <==> AllWhitespace(selector) || selector in {"#", ".", "["}
  {
    TrimEmptyIffAllWhitespace(selector);
    if selector == [] || Trim(selector) == [] then Fail(EmptySelectorError)
    else if selector == "#" || selector == "." || selector == "[" then Fail(EmptySelectorError)
    else Pass
  }

  /** The first ID the process-wide filter counter hands out. */
  const FirstFilterId: nat := 0

  class FilterCounter {
    var next: nat

    constructor ()
      ensures next == FirstFilterId
    {
      next := FirstFilterId;
    }

    method FetchAdd() returns (id: nat)
      modifies this
      ensures id == old(next) && next == id + 1
    {
      id := next;
      next := next + 1;
    }
  }

  /** An Erlang process that receives a filter's notifications. */
  datatype Pid = Pid(n: nat)

  datatype SelectorConfig = SelectorConfig(filterId: nat, selector: string, pid: Pid, sendText: bool)

  /** The IDs of a list of filters, in order. */
  function FilterIds(cs: seq<SelectorConfig>): (ids: seq<nat>)
    ensures |ids| == |cs|
    ensures forall i :: 0 <= i < |cs| ==> ids[i] == cs[i].filterId
  {
    if cs == [] then [] else FilterIds(cs[..|cs| - 1]) + [cs[|cs| - 1].filterId]
  }

  /** Filters whose IDs were drawn in order have strictly increasing, hence
      pairwise distinct, IDs, all below the counter. */
  lemma FilterIdsIncrease(cs: seq<SelectorConfig>, next: nat)
    requires IssuedBefore(FilterIds(cs), next)
    ensures forall i, j :: 0 <= i < j < |cs| ==> cs[i].filterId < cs[j].filterId
    ensures forall i :: 0 <= i < |cs| ==> cs[i].filterId < next
  {
    IssuedIdsIncrease(FilterIds(cs), next);
  }

  /** Collects filters until a rewriter is created from it. */
  class RewriterBuilder {
    var selectors: seq<SelectorConfig>

    constructor ()
      ensures selectors == []
    {
      selectors := [];
    }

    /** Registers a filter. A refused selector raises "The selector is
        empty." and leaves the counter and the builder as they were; an
        accepted one draws the next ID and is appended. */
    method Filter(counter: FilterCounter, pid: Pid, selector: string, sendText: bool) returns (r: Result<nat>)
      requires IssuedBefore(FilterIds(selectors), counter.next)
      modifies this, counter
      ensures IssuedBefore(FilterIds(selectors), counter.next)
      ensures r.Raised? <==> CheckSelector(selector).Fail?
      ensures r.Ok? <==> CheckSelector(selector).Pass?
      ensures r.Raised? ==> r.error == EmptySelectorError
      ensures r.Raised? ==> counter.next == old(counter.next) && selectors == old(selectors)
      ensures r.Ok? ==> && r.value == old(counter.next) && counter.next == r.value + 1
                        && selectors == old(selectors) + [SelectorConfig(r.value, selector, pid, sendText)]
    {
      var check := CheckSelector(selector);
      if check.Fail? {
        return Raised(check.error);
      }
      var id := counter.FetchAdd();
      AppendKeepsIssued(FilterIds(selectors), id);
      assert (selectors + [SelectorConfig(id, selector, pid, sendText)])[..|selectors|] == selectors;
      selectors := selectors + [SelectorConfig(id, selector, pid, sendText)];
      r := Ok(id);
    }
  }
}
