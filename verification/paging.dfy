/** Offset/limit pagination as the list pages run it: a current list and a
    one-page lookahead, fetched together; "previous" is offered while the page
    number exceeds one, "next" while the lookahead is non-empty. The equipment
    and order-service pages step a record offset by `limit`; the movement page
    steps a page index by one. */
module Paging {
  import opened Wrappers

  /** What the stored `offset` counts. */
  datatype Mode = RecordOffset | PageIndex

  /** A page's constants: `limit` records per request, the offset mode, and
      whether a failed lookahead fetch raises a toast. */
  datatype Config = Config(limit: nat, mode: Mode, lookaheadToast: bool)

  /** How far one click on "next" or "previous" moves `offset`. */
  function Step(c: Config): nat
  {
    if c.mode.RecordOffset? then c.limit else 1
  }

  /** The pagination state: `currentPage`, `offset`, the current list and the
      lookahead list. */
  datatype Pager<R> = Pager(currentPage: int, offset: int, items: seq<R>, nextItems: seq<R>)

  /** The initial `useState` values: page one, consistent for every
      configuration, with neither button shown. */
  function Start<R>(): (p: Pager<R>)
    ensures forall c: Config :: Consistent(c, p)
    ensures !ShowPrevious(p) && !ShowNext(p)
  {
    Pager(1, 0, [], [])
  }

  /** The invariant linking `offset` to `currentPage`. */
  predicate Consistent<R>(c: Config, p: Pager<R>)
  {
    p.currentPage >= 1 && p.offset == (p.currentPage - 1) * Step(c)
  }

  /** The "previous" button is rendered. */
  predicate ShowPrevious<R>(p: Pager<R>)
  {
    p.currentPage > 1
  }

  /** The "next" button is rendered. */
  predicate ShowNext<R>(p: Pager<R>)
  {
    |p.nextItems| > 0
  }

  /** A click on "previous"; without the button there is nothing to click. */
  function Previous<R>(c: Config, p: Pager<R>): (q: Pager<R>)
    ensures Consistent(c, p) ==> Consistent(c, q) && q.offset >= 0
    ensures ShowPrevious(p) ==> q.currentPage == p.currentPage - 1
    ensures !ShowPrevious(p) ==> q == p
    ensures q.items == p.items && q.nextItems == p.nextItems
  {
    if ShowPrevious(p) then p.(currentPage := p.currentPage - 1, offset := p.offset - Step(c)) else p
  }

  /** A click on "next"; without the button there is nothing to click. */
  function Next<R>(c: Config, p: Pager<R>): (q: Pager<R>)
    ensures Consistent(c, p) ==> Consistent(c, q) && q.offset >= 0
    ensures ShowNext(p) ==> q.currentPage == p.currentPage + 1
    ensures !ShowNext(p) ==> q == p
    ensures q.items == p.items && q.nextItems == p.nextItems
  {
    if ShowNext(p) then p.(currentPage := p.currentPage + 1, offset := p.offset + Step(c)) else p
  }

  /** A list request: `take`/`resultquantity` and `skip`/`page`. */
  datatype Request = Request(take: nat, position: int)

  /** The current list's request; for a consistent pager it starts at page
      `currentPage - 1`, at a non-negative position. */
  function CurrentRequest<R>(c: Config, p: Pager<R>): (r: Request)
    ensures r.take == c.limit
    ensures Consistent(c, p) ==> r.position == (p.currentPage - 1) * Step(c) >= 0
  {
    Request(c.limit, p.offset)
  }

  /** The lookahead's request: the page after the current one. */
  function LookaheadRequest<R>(c: Config, p: Pager<R>): (r: Request)
    ensures r.take == c.limit
    ensures r.position == CurrentRequest(c, p).position + Step(c)
    ensures Consistent(c, p) ==> r.position == p.currentPage * Step(c) >= 0
  {
    Request(c.limit, p.offset + Step(c))
  }

  /** A pager after a response arrived, and whether a toast was raised. */
  datatype Loaded<R> = Loaded(pager: Pager<R>, toast: bool)

  /** The current fetch: the response replaces the list; a failure empties it
      and raises a toast. The position is untouched. */
  function LoadCurrent<R>(p: Pager<R>, response: Option<seq<R>>): (r: Loaded<R>)
    ensures r.pager.currentPage == p.currentPage && r.pager.offset == p.offset
    ensures r.pager.nextItems == p.nextItems
    ensures response.None? ==> r.pager.items == [] && r.toast
    ensures response.Some? ==> r.pager.items == response.value && !r.toast
  {
    match response
    case Some(data) => Loaded(p.(items := data), false)
    case None => Loaded(p.(items := []), true)
  }

  /** The lookahead fetch: a failure empties the lookahead, which hides
      "next"; whether it also toasts depends on the page. */
  function LoadLookahead<R>(c: Config, p: Pager<R>, response: Option<seq<R>>): (r: Loaded<R>)
    ensures r.pager.currentPage == p.currentPage && r.pager.offset == p.offset
    ensures r.pager.items == p.items
    ensures response.None? ==> !ShowNext(r.pager) && r.toast == c.lookaheadToast
    ensures response.Some? ==> r.pager.nextItems == response.value && !r.toast
  {
    match response
    case Some(data) => Loaded(p.(nextItems := data), false)
    case None => Loaded(p.(nextItems := []), c.lookaheadToast)
  }

  /** What can happen to a list page's pagination. */
  datatype Event<R> =
    | PreviousClicked
    | NextClicked
    | CurrentFetched(response: Option<seq<R>>)
    | LookaheadFetched(response: Option<seq<R>>)

  /** One event: a click moves the page by at most one and leaves the lists
      alone; a response leaves the position alone. */
  function Apply<R>(c: Config, p: Pager<R>, e: Event<R>): (q: Pager<R>)
    ensures Consistent(c, p) ==> Consistent(c, q)
    ensures p.currentPage - 1 <= q.currentPage <= p.currentPage + 1
    ensures p.currentPage >= 1 ==> q.currentPage >= 1
    ensures (e.PreviousClicked? || e.NextClicked?) ==> q.items == p.items && q.nextItems == p.nextItems
    ensures (e.CurrentFetched? || e.LookaheadFetched?) ==>
      q.currentPage == p.currentPage && q.offset == p.offset
  {
    match e
    case PreviousClicked => Previous(c, p)
    case NextClicked => Next(c, p)
    case CurrentFetched(response) => LoadCurrent(p, response).pager
    case LookaheadFetched(response) => LoadLookahead(c, p, response).pager
  }

  /** The pager after a sequence of events, in order: the page never drops
      below one and moves by at most one per event. */
  function Run<R>(c: Config, p: Pager<R>, events: seq<Event<R>>): (q: Pager<R>)
    ensures p.currentPage >= 1 ==> q.currentPage >= 1
    ensures p.currentPage - |events| <= q.currentPage <= p.currentPage + |events|
    decreases |events|
  {
    if |events| == 0 then p else Run(c, Apply(c, p, events[0]), events[1..])
  }

  /** Whatever the clicks and responses, `offset == (currentPage - 1) * step`
      holds throughout, so the offset never goes negative. */
  lemma {:induction false} RunKeepsConsistent<R>(c: Config, p: Pager<R>, events: seq<Event<R>>)
    requires Consistent(c, p)
    ensures Consistent(c, Run(c, p, events))
    ensures Run(c, p, events).offset >= 0
    decreases |events|
  {
    if |events| > 0 {
      var q := Apply(c, p, events[0]);
      RunKeepsConsistent(c, q, events[1..]);
    }
  }
}
