/** Enumeration of one resource kind: the listing operation is called, its
    page of items collected, and the call re-issued with the continuation
    token until a response carries none. The service is modelled as a finite
    script: the j-th call returns `script[j]`. */
module Pagination {
  import opened Options
  import opened Descriptors

  /** One listing response: its string-valued fields (continuation tokens)
      and its list-valued fields (pages of items). */
  datatype Response = Response(strings: map<string, string>, lists: map<string, seq<Item>>)

  /** The continuation token as `response.get(field)` reads it; an absent
      field reads the same as an empty one. */
  function Token(d: Descriptor, r: Response): string {
    match Get(r.strings, d.responseToken)
    case Some(t) => t
    case None => ""
  }

  /** The response asks for another call: its token is present and non-empty. */
  predicate HasMore(d: Descriptor, r: Response) {
    Token(d, r) != ""
  }

  /** The index of the first response without a token, if the script has one. */
  function StopIndex(d: Descriptor, script: seq<Response>): (k: Option<nat>)
    ensures k.Some? ==> k.value < |script| && !HasMore(d, script[k.value])
    ensures k.Some? ==> forall j :: 0 <= j < k.value ==> HasMore(d, script[j])
    ensures k.None? ==> forall j :: 0 <= j < |script| ==> HasMore(d, script[j])
  {
    if script == [] then None
    else if !HasMore(d, script[0]) then Some(0)
    else match StopIndex(d, script[1..])
      case None => None
      case Some(k) => Some(k + 1)
  }

  /** The script ends pagination, and every response fetched before it ends
      carries the items field (the loop cannot extend a missing list). */
  predicate Answerable(d: Descriptor, script: seq<Response>) {
    && StopIndex(d, script).Some?
    && forall j :: 0 <= j <= StopIndex(d, script).value ==> d.objectKey in script[j].lists
  }

  /** The responses the loop fetches: the shortest prefix of the script that
      ends with a response without a token. */
  function Fetched(d: Descriptor, script: seq<Response>): (pages: seq<Response>)
    requires Answerable(d, script)
    ensures 1 <= |pages| <= |script| && pages == script[..|pages|]
    ensures forall j :: 0 <= j < |pages| - 1 ==> HasMore(d, pages[j])
    ensures !HasMore(d, pages[|pages| - 1])
    ensures forall j :: 0 <= j < |pages| ==> d.objectKey in pages[j].lists
  {
    script[..StopIndex(d, script).value + 1]
  }

  /** The items of a run of pages, page after page. */
  function Concat(d: Descriptor, pages: seq<Response>): seq<Item>
    requires forall j :: 0 <= j < |pages| ==> d.objectKey in pages[j].lists
  {
    if pages == [] then []
    else Concat(d, pages[..|pages| - 1]) + pages[|pages| - 1].lists[d.objectKey]
  }

  /** Collecting two runs of pages is collecting each, in order. */
  lemma {:induction false} ConcatAppend(d: Descriptor, a: seq<Response>, b: seq<Response>)
    requires forall j :: 0 <= j < |a| ==> d.objectKey in a[j].lists
    requires forall j :: 0 <= j < |b| ==> d.objectKey in b[j].lists
    ensures forall j :: 0 <= j < |a + b| ==> d.objectKey in (a + b)[j].lists
    ensures Concat(d, a + b) == Concat(d, a) + Concat(d, b)
  {
    if b == [] {
      assert a + b == a;
    } else {
      var b' := b[..|b| - 1];
      assert (a + b)[..|a + b| - 1] == a + b';
      ConcatAppend(d, a, b');
    }
  }

  /** Every item of every page is collected, at its position: page j's
      items follow those of pages 0..j-1. */
  lemma {:induction false} ConcatHasEveryPage(d: Descriptor, pages: seq<Response>, j: nat)
    requires forall k :: 0 <= k < |pages| ==> d.objectKey in pages[k].lists
    requires j < |pages|
    ensures Concat(d, pages) == Concat(d, pages[..j]) + pages[j].lists[d.objectKey] + Concat(d, pages[j + 1..])
  {
    assert pages == pages[..j] + [pages[j]] + pages[j + 1..];
    ConcatAppend(d, pages[..j] + [pages[j]], pages[j + 1..]);
    ConcatAppend(d, pages[..j], [pages[j]]);
    assert Concat(d, [pages[j]]) == pages[j].lists[d.objectKey] by {
      assert [pages[j]][..0] == [];
    }
  }

  /** The keyword arguments of successive calls: the first call uses
      `kwargs`, and the call after page j is made with `tokenKwarg` set to
      page j's token. */
  function RequestChain(d: Descriptor, kwargs: Kwargs, pages: seq<Response>): (calls: seq<Kwargs>)
    ensures |calls| == |pages| + 1 && calls[0] == kwargs
  {
    if pages == [] then [kwargs]
    else
      var prior := RequestChain(d, kwargs, pages[..|pages| - 1]);
      prior + [prior[|prior| - 1][d.tokenKwarg := Str(Token(d, pages[|pages| - 1]))]]
  }

  /** Each call after the first has exactly the keys of the call before it
      plus the token parameter, which holds the previous page's token; every
      other parameter is unchanged. */
  lemma {:induction false} ChainUpdatesOnlyToken(d: Descriptor, kwargs: Kwargs, pages: seq<Response>, j: nat)
    requires 0 < j <= |pages|
    ensures var calls := RequestChain(d, kwargs, pages);
      && calls[j].Keys == calls[j - 1].Keys + {d.tokenKwarg}
      && calls[j][d.tokenKwarg] == Str(Token(d, pages[j - 1]))
      && forall k :: k in calls[j - 1] && k != d.tokenKwarg ==> calls[j][k] == calls[j - 1][k]
  {
    var prefix := pages[..j];
    ChainPrefix(d, kwargs, pages, j);
    ChainPrefix(d, kwargs, pages, j - 1);
    assert prefix[..j - 1] == pages[..j - 1];
  }

  /** A call's kwargs depend only on the pages before it. */
  lemma {:induction false} ChainPrefix(d: Descriptor, kwargs: Kwargs, pages: seq<Response>, j: nat)
    requires j <= |pages|
    ensures RequestChain(d, kwargs, pages)[j] == RequestChain(d, kwargs, pages[..j])[j]
  {
    if j < |pages| {
      var last := pages[..|pages| - 1];
      assert last[..j] == pages[..j];
      ChainPrefix(d, kwargs, last, j);
    } else {
      assert pages[..j] == pages;
    }
  }

  /** Keys other than the token parameter keep their initial value in every
      call of the chain. */
  lemma {:induction false} ChainKeepsOtherKwargs(d: Descriptor, kwargs: Kwargs, pages: seq<Response>, j: nat, k: string)
    requires j <= |pages| && k in kwargs && k != d.tokenKwarg
    ensures k in RequestChain(d, kwargs, pages)[j] && RequestChain(d, kwargs, pages)[j][k] == kwargs[k]
  {
    if j > 0 {
      ChainKeepsOtherKwargs(d, kwargs, pages, j - 1, k);
      ChainUpdatesOnlyToken(d, kwargs, pages, j);
    }
  }

  /** The keyword arguments of every call the loop makes. */
  function Requests(d: Descriptor, script: seq<Response>): seq<Kwargs>
    requires Answerable(d, script)
  {
    RequestChain(d, d.methodKwargs, script[..StopIndex(d, script).value])
  }

  /** Number of pages in a run whose response carries a token. */
  function CountMore(d: Descriptor, pages: seq<Response>): nat {
    if pages == [] then 0
    else (if HasMore(d, pages[0]) then 1 else 0) + CountMore(d, pages[1..])
  }

  /** The loop makes one call plus one call per response that carried a
      non-empty token. */
  lemma CallCount(d: Descriptor, script: seq<Response>)
    requires Answerable(d, script)
    ensures |Requests(d, script)| == |Fetched(d, script)| == 1 + CountMore(d, Fetched(d, script))
  {
    var pages := Fetched(d, script);
    AllButLastCount(d, pages);
  }

  lemma {:induction false} AllButLastCount(d: Descriptor, pages: seq<Response>)
    requires |pages| >= 1
    requires forall j :: 0 <= j < |pages| - 1 ==> HasMore(d, pages[j])
    requires !HasMore(d, pages[|pages| - 1])
    ensures CountMore(d, pages) == |pages| - 1
  {
    if |pages| > 1 {
      AllButLastCount(d, pages[1..]);
    }
  }

  /** A first response without a token ends enumeration after one call,
      holding just that page's items. */
  lemma SinglePage(d: Descriptor, script: seq<Response>)
    requires |script| >= 1 && !HasMore(d, script[0]) && d.objectKey in script[0].lists
    ensures Answerable(d, script)
    ensures Fetched(d, script) == [script[0]] && Requests(d, script) == [d.methodKwargs]
    ensures Concat(d, Fetched(d, script)) == script[0].lists[d.objectKey]
  {
  }

  /** N pages whose last alone omits the token are all fetched: the result is
      the concatenation of all N pages' items in order. */
  lemma AllPagesCollected(d: Descriptor, script: seq<Response>)
    requires |script| >= 1 && !HasMore(d, script[|script| - 1])
    requires forall j :: 0 <= j < |script| - 1 ==> HasMore(d, script[j])
    requires forall j :: 0 <= j < |script| ==> d.objectKey in script[j].lists
    ensures Answerable(d, script) && Fetched(d, script) == script
    ensures |Requests(d, script)| == |script|
  {
  }

  /** One more fetched page extends the collected items by its own. */
  lemma ConcatStep(d: Descriptor, script: seq<Response>, i: nat)
    requires i < |script| && forall j :: 0 <= j <= i ==> d.objectKey in script[j].lists
    ensures Concat(d, script[..i + 1]) == Concat(d, script[..i]) + script[i].lists[d.objectKey]
  {
    assert script[..i + 1][..i] == script[..i];
  }

  /** One more token-carrying page adds one call, made with its token. */
  lemma ChainStep(d: Descriptor, kwargs: Kwargs, script: seq<Response>, i: nat)
    requires i < |script|
    ensures RequestChain(d, kwargs, script[..i + 1])
         == RequestChain(d, kwargs, script[..i]) + [RequestChain(d, kwargs, script[..i])[i][d.tokenKwarg := Str(Token(d, script[i]))]]
  {
    assert script[..i + 1][..i] == script[..i];
  }

  /** Lambda reads its token from `NextMarker` but sends it back as `Marker`:
      after a first page carrying marker `m`, the second call is made with
      `Marker` set to `m` and nothing else. */
  lemma LambdaMarker(script: seq<Response>, m: string)
    requires Answerable(Lambda, script) && |script| >= 2
    requires script[0].strings == map["NextMarker" := m] && m != ""
    ensures |Requests(Lambda, script)| >= 2
    ensures Requests(Lambda, script)[1] == map["Marker" := Str(m)]
  {
    var calls := Requests(Lambda, script);
    assert HasMore(Lambda, script[0]);
    ChainUpdatesOnlyToken(Lambda, Lambda.methodKwargs, script[..StopIndex(Lambda, script).value], 1);
    assert calls[1].Keys == {"Marker"};
  }

  /** The enumeration loop: call, collect, and repeat with the token put
      into a copy of the keyword arguments until a response has no token.
      Returns the collected items and the keyword arguments of each call. */
  method Paginate(d: Descriptor, script: seq<Response>) returns (items: seq<Item>, requests: seq<Kwargs>)
    requires Answerable(d, script)
    ensures requests == Requests(d, script)
    ensures items == Concat(d, Fetched(d, script))
  {
    var stop := StopIndex(d, script).value;
    var kwargs := d.methodKwargs;
    var response := script[0];
    items := response.lists[d.objectKey];
    requests := [kwargs];
    var i := 0;
    ConcatStep(d, script, 0);
    while HasMore(d, response)
      invariant 0 <= i <= stop && response == script[i]
      invariant items == Concat(d, script[..i + 1])
      invariant requests == RequestChain(d, d.methodKwargs, script[..i])
      invariant kwargs == requests[i]
      decreases stop - i
    {
      ChainStep(d, d.methodKwargs, script, i);
      kwargs := kwargs[d.tokenKwarg := Str(Token(d, response))];
      i := i + 1;
      ConcatStep(d, script, i);
      response := script[i];
      items := items + response.lists[d.objectKey];
      requests := requests + [kwargs];
    }
    assert i == stop;
  }
}
