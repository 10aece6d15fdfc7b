/** The pagination stream: a state holding the current page's items (or a pending error)
    and the `Link` to the next page, stepped one item at a time. The network is a parameter:
    the pages it returns, in the order they are asked for. */
module Unfold {
  import opened Wrappers
  import opened Errors

  /** The `rel` values of a `Link` header that matter here. */
  datatype RelationType = Next | Prev | First | Last | OtherRel(name: string)

  /** One value of a `Link` header: its target and its `rel` list, if it has one. */
  datatype LinkValue = LinkValue(link: string, rel: Option<seq<RelationType>>)

  datatype Link = Link(values: seq<LinkValue>)

  /** The first relation of the value is `next`; a `next` further down its list does not count. */
  predicate FirstRelIsNext(v: LinkValue) {
    v.rel.Some? && |v.rel.value| > 0 && v.rel.value[0] == Next
  }

  /** `next_link`: the target of the first value whose first relation is `next`. */
  function NextLink(l: Link): (r: Option<string>)
    ensures r.None? <==> forall i :: 0 <= i < |l.values| ==> !FirstRelIsNext(l.values[i])
    ensures r.Some? ==>
      (exists i :: 0 <= i < |l.values| && FirstRelIsNext(l.values[i]) &&
        l.values[i].link == r.value && forall j :: 0 <= j < i ==> !FirstRelIsNext(l.values[j]))
  {
    FindNext(l.values, 0)
  }

  function FindNext(values: seq<LinkValue>, i: nat): (r: Option<string>)
    requires i <= |values|
    requires forall j :: 0 <= j < i ==> !FirstRelIsNext(values[j])
    ensures r.None? <==> forall j :: 0 <= j < |values| ==> !FirstRelIsNext(values[j])
    ensures r.Some? ==>
      (exists n :: i <= n < |values| && FirstRelIsNext(values[n]) &&
        values[n].link == r.value && forall j :: 0 <= j < n ==> !FirstRelIsNext(values[j]))
    decreases |values| - i
  {
    if i == |values| then None
    else if FirstRelIsNext(values[i]) then Some(values[i].link)
    else FindNext(values, i + 1)
  }

  /** A parsed URL, as far as the stream uses it. */
  datatype Url = Url(path: string, query: Option<string>)

  /** `[url.path(), url.query().unwrap_or_default()].join("?")`: a URL without a query still
      gets the '?'. */
  function PageUri(u: Url): (r: string)
    ensures |r| == |u.path| + 1 + (if u.query.Some? then |u.query.value| else 0)
    ensures r[..|u.path|] == u.path && r[|u.path|] == '?'
    ensures u.query.Some? ==> r[|u.path| + 1..] == u.query.value
    ensures u.query.None? ==> r == u.path + "?"
  {
    u.path + "?" + (if u.query.Some? then u.query.value else "")
  }

  /** What one request for a page gives: its `Link` header and payload, or an error. */
  type Fetched<S> = Result<(Option<Link>, S), Error>

  /** The three outcomes of one `flat_next`. */
  datatype Step<T> = NextReady(item: Result<T, Error>) | FetchNextPage | Empty

  /** The stream's state as a value: the page's items or its error (or nothing), and the next
      page's link. */
  datatype State<T> = State(items: Option<Result<seq<T>, Error>>, nextPage: Option<Link>)

  /** `load_state`: a page replaces the items with what `toItems` makes of its payload and
      the link with its own; an error is held with no next page. */
  function Load<S, T>(fetched: Fetched<S>, toItems: S -> seq<T>): (s: State<T>)
    ensures fetched.Ok? ==> s == State(Some(Ok(toItems(fetched.value.1))), fetched.value.0)
    ensures fetched.Err? ==> s == State(Some(Err(fetched.error)), None)
  {
    match fetched
    case Ok((link, payload)) => State(Some(Ok(toItems(payload))), link)
    case Err(e) => State(Some(Err(e)), None)
  }

  /** `flat_next`: the last item of a non-empty page comes out first and leaves the rest; a
      held error comes out once and leaves nothing behind; an exhausted or absent page is
      dropped and the stream asks for the next page when there is a link, and ends otherwise. */
  function FlatNext<T>(s: State<T>): (r: (Step<T>, State<T>))
    ensures s.items.Some? && s.items.value.Ok? && |s.items.value.value| > 0 ==>
      var page := s.items.value.value;
      r == (NextReady(Ok(page[|page| - 1])), State(Some(Ok(page[..|page| - 1])), s.nextPage))
    ensures s.items.Some? && s.items.value.Err? ==> r == (NextReady(Err(s.items.value.error)), State(None, None))
    ensures (s.items.None? || (s.items.value.Ok? && |s.items.value.value| == 0)) ==>
      r == (if s.nextPage.Some? then FetchNextPage else Empty, State(None, s.nextPage))
  {
    match s.items
    case Some(Ok(page)) =>
      if |page| > 0 then (NextReady(Ok(page[|page| - 1])), State(Some(Ok(page[..|page| - 1])), s.nextPage))
      else if s.nextPage.Some? then (FetchNextPage, State(None, s.nextPage))
      else (Empty, State(None, s.nextPage))
    case Some(Err(e)) => (NextReady(Err(e)), State(None, None))
    case None => if s.nextPage.Some? then (FetchNextPage, State(None, s.nextPage)) else (Empty, State(None, s.nextPage))
  }

  /** The URI `fetch_next_page` requests for a link, when it has a `next` target that parses. */
  function NextUri(link: Link, parse: string -> Option<Url>): (r: Option<string>)
    ensures r.Some? <==> NextLink(link).Some? && parse(NextLink(link).value).Some?
    ensures r.Some? ==> r.value == PageUri(parse(NextLink(link).value).value)
  {
    var target := NextLink(link);
    if target.Some? && parse(target.value).Some? then Some(PageUri(parse(target.value).value)) else None
  }

  /** The page read back to front. */
  function Reverse<T>(xs: seq<T>): (r: seq<T>)
    ensures |r| == |xs|
  {
    if |xs| == 0 then [] else Reverse(xs[1..]) + [xs[0]]
  }

  lemma {:induction false} ReverseSnoc<T>(xs: seq<T>, x: T)
    ensures Reverse(xs + [x]) == [x] + Reverse(xs)
    decreases |xs|
  {
    if |xs| > 0 {
      assert (xs + [x])[1..] == xs[1..] + [x];
      ReverseSnoc(xs[1..], x);
    } else {
      assert xs + [x] == [x];
    }
  }

  /** Each item as a successful result. */
  function Oks<T>(xs: seq<T>): (r: seq<Result<T, Error>>)
    ensures |r| == |xs|
  {
    if |xs| == 0 then [] else [Ok(xs[0])] + Oks(xs[1..])
  }

  /** What `n` steps give out before one of them fetches or ends, and the state they leave. */
  function Steps<T>(s: State<T>, n: nat): (r: (seq<Result<T, Error>>, State<T>))
    ensures |r.0| <= n
    decreases n
  {
    if n == 0 then ([], s)
    else
      var (step, s') := FlatNext(s);
      if step.NextReady? then
        var (rest, last) := Steps(s', n - 1);
        ([step.item] + rest, last)
      else ([], s')
  }

  /** A page gives out all its items, last first, keeping the link to the next page; the step
      after that asks for the next page when there is a link and ends otherwise. */
  lemma {:induction false} DrainPage<T>(page: seq<T>, link: Option<Link>)
    ensures Steps(State(Some(Ok(page)), link), |page|) == (Oks(Reverse(page)), State(Some(Ok([])), link))
    ensures FlatNext<T>(State(Some(Ok([])), link)).0 == if link.Some? then FetchNextPage else Empty
    decreases |page|
  {
    if |page| > 0 {
      var init, last := page[..|page| - 1], page[|page| - 1];
      DrainPage(init, link);
      ReverseSnoc(init, last);
      assert init + [last] == page;
      assert ([last] + Reverse(init))[1..] == Reverse(init);
    }
  }

  /** A held error comes out once, and then the stream has nothing: no items and no link. */
  lemma ErrorOnce<T>(e: Error, link: Option<Link>, n: nat)
    requires n >= 1
    ensures Steps<T>(State(Some(Err(e)), link), n) == ([Err(e)], State(None, None))
    ensures FlatNext<T>(State(None, None)).0 == Empty
  {
    var s: State<T> := State(None, None);
    assert FlatNext(State(Some(Err(e)), link)) == (NextReady(Err(e)), s);
    assert Steps(s, n - 1) == ([], s);
    var one: seq<Result<T, Error>> := [Err(e)];
    assert one + [] == one;
  }

  /** What the `Stream` gives back from one poll: an item, the end, or nothing yet because a
      page it asked for has not arrived (the responses given ran out). */
  datatype Poll<T> = Ready(item: Option<Result<T, Error>>) | Pending

  /** How far a state is from needing a page: a held page or error counts 2, a link 1. */
  function Rank<T>(s: State<T>): nat {
    (if s.items.Some? then 2 else 0) + (if s.nextPage.Some? then 1 else 0)
  }

  /** `fetch_next_page` as a value: the link is always consumed; a `next` target that parses
      is requested and its response loaded, and otherwise the items stay and there is no next
      page. The result says how many responses were used. */
  function FetchNext<S, T>(s: State<T>, toItems: S -> seq<T>, parse: string -> Option<Url>,
                          pages: seq<Fetched<S>>): (r: (Poll<()>, State<T>, nat))
    ensures r.2 <= 1 && r.2 <= |pages|
    ensures s.nextPage.None? ==> r == (Ready(None), s, 0)
    ensures r.0.Pending? <==> s.nextPage.Some? && NextUri(s.nextPage.value, parse).Some? && |pages| == 0
    ensures r.0.Ready? && r.2 == 0 ==> r.1 == State(s.items, None)
    ensures r.2 == 1 ==> r.1 == Load(pages[0], toItems)
  {
    if s.nextPage.None? then (Ready(None), s, 0)
    else if NextUri(s.nextPage.value, parse).None? then (Ready(None), State(s.items, None), 0)
    else if |pages| == 0 then (Pending, s, 0)
    else (Ready(None), Load(pages[0], toItems), 1)
  }

  /** `next`: step until an item or the end; each time a page is needed, fetch it and carry
      on. The result says how many responses were used. */
  function NextSpec<S, T>(s: State<T>, toItems: S -> seq<T>, parse: string -> Option<Url>,
                         pages: seq<Fetched<S>>): (r: (Poll<T>, State<T>, nat))
    ensures r.2 <= |pages|
    ensures r.0 == Ready(None) ==> r.1 == State(None, None)
    decreases |pages|, Rank(s)
  {
    var (step, s') := FlatNext(s);
    match step
    case NextReady(item) => (Ready(Some(item)), s', 0)
    case Empty => (Ready(None), s', 0)
    case FetchNextPage =>
      var (poll, s'', used) := FetchNext(s', toItems, parse, pages);
      if poll.Pending? then (Pending, s'', 0)
      else
        var (r, last, more) := NextSpec(s'', toItems, parse, pages[used..]);
        (r, last, used + more)
  }

  /** One round of `NextSpec`, by the step `FlatNext` takes. */
  lemma NextSpecUnfold<S, T>(s: State<T>, toItems: S -> seq<T>, parse: string -> Option<Url>,
                             pages: seq<Fetched<S>>)
    ensures var (step, s') := FlatNext(s);
      && (step.NextReady? ==> NextSpec(s, toItems, parse, pages) == (Ready(Some(step.item)), s', 0))
      && (step.Empty? ==> NextSpec(s, toItems, parse, pages) == (Ready(None), s', 0))
      && (step.FetchNextPage? ==>
            var f := FetchNext(s', toItems, parse, pages);
            NextSpec(s, toItems, parse, pages) ==
              if f.0.Pending? then (Pending, f.1, 0)
              else Shifted(NextSpec(f.1, toItems, parse, pages[f.2..]), f.2))
  {
  }

  /** A page request that is not left pending either uses a response or brings the stream
      closer to its end. */
  lemma FetchProgress<S, T>(s: State<T>, toItems: S -> seq<T>, parse: string -> Option<Url>,
                            pages: seq<Fetched<S>>)
    requires FlatNext(s).0 == FetchNextPage
    ensures var f := FetchNext(FlatNext(s).1, toItems, parse, pages);
      f.0.Ready? && f.2 == 0 ==> Rank(f.1) < Rank(s)
  {
  }

  /** A result of `NextSpec` with `n` more responses counted as used. */
  function Shifted<T>(r: (Poll<T>, State<T>, nat), n: nat): (Poll<T>, State<T>, nat) {
    (r.0, r.1, r.2 + n)
  }

  /** The stream state object the pagination future carries from poll to poll. */
  class StreamState<S, T> {
    var items: Option<Result<seq<T>, Error>>
    var nextPage: Option<Link>
    const toItems: S -> seq<T>

    function Snapshot(): State<T>
      reads this
    {
      State(items, nextPage)
    }

    /** `StreamState::new`: the first page loaded as `load_state` loads every page. */
    constructor (initial: Fetched<S>, toItems: S -> seq<T>)
      ensures this.toItems == toItems
      ensures Snapshot() == Load(initial, toItems)
    {
      this.toItems := toItems;
      match initial
      case Ok((link, payload)) =>
        items := Some(Ok(toItems(payload)));
        nextPage := link;
      case Err(e) =>
        items := Some(Err(e));
        nextPage := None;
    }

    /** `load_state`. */
    method LoadState(fetched: Fetched<S>)
      modifies this
      ensures Snapshot() == Load(fetched, toItems)
    {
      match fetched
      case Ok((link, payload)) =>
        items := Some(Ok(toItems(payload)));
        nextPage := link;
      case Err(e) =>
        items := Some(Err(e));
        nextPage := None;
    }

    /** `flat_next`: takes the items out, pops the last one when there is one and puts the
        rest back. */
    method FlatNextStep() returns (step: Step<T>)
      modifies this
      ensures (step, Snapshot()) == FlatNext(old(Snapshot()))
    {
      var taken := items;
      items := None;
      if taken.Some? {
        match taken.value
        case Ok(page) =>
          if |page| > 0 {
            var item := page[|page| - 1];
            items := Some(Ok(page[..|page| - 1]));
            step := NextReady(Ok(item));
          } else if nextPage.Some? {
            step := FetchNextPage;
          } else {
            step := Empty;
          }
        case Err(e) =>
          nextPage := None;
          step := NextReady(Err(e));
      } else if nextPage.Some? {
        step := FetchNextPage;
      } else {
        step := Empty;
      }
    }

    /** `fetch_next_page`: takes the link out; requests the next page when the link has a
        `next` target that parses, using the first of `pages`. */
    method FetchNextPageStep(parse: string -> Option<Url>, pages: seq<Fetched<S>>)
      returns (poll: Poll<()>, used: nat)
      modifies this
      ensures (poll, Snapshot(), used) == FetchNext(old(Snapshot()), toItems, parse, pages)
    {
      used := 0;
      poll := Ready(None);
      if nextPage.Some? {
        var link := nextPage.value;
        var uri := NextUri(link, parse);
        if uri.None? {
          nextPage := None;
        } else if |pages| == 0 {
          poll := Pending;
        } else {
          LoadState(pages[0]);
          used := 1;
        }
      }
    }

    /** The stream, with `used` of `pages` already consumed, is on course to give `goal`. */
    ghost predicate Heading(parse: string -> Option<Url>, pages: seq<Fetched<S>>, used: nat,
                            goal: (Poll<T>, State<T>, nat))
      reads this
    {
      && used <= |pages|
      && var r := NextSpec(Snapshot(), toItems, parse, pages[used..]);
        r.0 == goal.0 && r.1 == goal.1 && used + r.2 == goal.2
    }

    /** One pass of the loop in `next`: a step, and a page request when the step asks for one.
        `done` says the loop returns `poll`; otherwise it goes round again. */
    method Round(parse: string -> Option<Url>, pages: seq<Fetched<S>>, used: nat,
                 ghost goal: (Poll<T>, State<T>, nat))
      returns (done: bool, poll: Poll<T>, used': nat)
      modifies this
      requires Heading(parse, pages, used, goal)
      ensures done ==> (poll, Snapshot(), used') == goal
      ensures !done ==> Heading(parse, pages, used', goal)
      ensures !done ==> used' > used || (used' == used && Rank(Snapshot()) < Rank(old(Snapshot())))
    {
      ghost var before := Snapshot();
      NextSpecUnfold(before, toItems, parse, pages[used..]);
      var step := FlatNextStep();
      done, used' := true, used;
      if step.NextReady? {
        poll := Ready(Some(step.item));
      } else if step.Empty? {
        poll := Ready(None);
      } else {
        done, poll, used' := PageRound(parse, pages, used, goal, before);
      }
    }

    /** The rest of a pass whose step asked for a page: the request, and either a pending
        result or another pass over the loaded page. */
    method PageRound(parse: string -> Option<Url>, pages: seq<Fetched<S>>, used: nat,
                     ghost goal: (Poll<T>, State<T>, nat), ghost before: State<T>)
      returns (done: bool, poll: Poll<T>, used': nat)
      modifies this
      requires used <= |pages|
      requires FlatNext(before).0 == FetchNextPage && Snapshot() == FlatNext(before).1
      requires var r := NextSpec(before, toItems, parse, pages[used..]);
        r.0 == goal.0 && r.1 == goal.1 && used + r.2 == goal.2
      ensures done ==> (poll, Snapshot(), used') == goal
      ensures !done ==> Heading(parse, pages, used', goal)
      ensures !done ==> used' > used || (used' == used && Rank(Snapshot()) < Rank(before))
    {
      var rest := pages[used..];
      NextSpecUnfold(before, toItems, parse, rest);
      var fetched, n := FetchNextPageStep(parse, rest);
      if fetched.Pending? {
        done, poll, used' := true, Pending, used;
      } else {
        FetchProgress(before, toItems, parse, rest);
        assert rest[n..] == pages[used + n..];
        done, poll, used' := false, Pending, used + n;
      }
    }

    /** `next`: the loop that steps until an item comes out or the stream ends. */
    method NextItem(parse: string -> Option<Url>, pages: seq<Fetched<S>>)
      returns (poll: Poll<T>, used: nat)
      modifies this
      ensures (poll, Snapshot(), used) == NextSpec(old(Snapshot()), toItems, parse, pages)
    {
      ghost var goal := NextSpec(Snapshot(), toItems, parse, pages);
      used := 0;
      assert pages[0..] == pages;
      while true
        invariant Heading(parse, pages, used, goal)
        decreases |pages| - used, Rank(Snapshot())
      {
        var done;
        done, poll, used := Round(parse, pages, used, goal);
        if done {
          return;
        }
      }
    }
  }
}
