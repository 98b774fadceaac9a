/**
 The crawler example (examples/crawler/handler/crawl.go): a handler that publishes further tasks of smaller depth, and
 the proof that the work it creates always drains.
 */
module Crawl {
  import opened Wrappers

  datatype Page = Page(baseURL: string, url: string, depth: int)

  /** What fetching a page gives: nothing, or a status and the links its body has, if it can be parsed. */
  datatype Fetched = Unreachable | Response(status: int, links: Option<seq<string>>)

  /** `strings.TrimSuffix(url, "/")`. */
  function Trim(url: string): (r: string)
    ensures if url != "" && url[|url| - 1] == '/' then url == r + "/" else url == r
  {
    if url != "" && url[|url| - 1] == '/' then url[..|url| - 1] else url
  }

  function Unvisited(links: seq<string>, crawls: map<string, int>): seq<string> {
    if links == [] then []
    else
      var init, last := Unvisited(links[..|links| - 1], crawls), links[|links| - 1];
      if last in crawls then init else init + [last]
  }

  /** `at` are the places in `links` of what is kept: in order, and all of those whose url has not been crawled. */
  ghost predicate Picks(links: seq<string>, crawls: map<string, int>, kept: seq<string>, at: seq<nat>) {
    && |at| == |kept|
    && (forall i, j :: 0 <= i < j < |at| ==> at[i] < at[j])
    && (forall i :: 0 <= i < |at| ==> at[i] < |links| && kept[i] == links[at[i]])
    && (forall p :: 0 <= p < |links| ==> (p in at <==> links[p] !in crawls))
  }

  lemma PickNext(init: seq<string>, last: string, crawls: map<string, int>, kept: seq<string>, at: seq<nat>)
    requires Picks(init, crawls, kept, at)
    ensures last in crawls ==> Picks(init + [last], crawls, kept, at)
    ensures last !in crawls ==> Picks(init + [last], crawls, kept + [last], at + [|init|])
  {
    var links, next := init + [last], at + [|init|];
    assert forall i :: 0 <= i < |at| ==> next[i] == at[i];
    forall p | 0 <= p < |links| ensures p in next <==> p in at || p == |init| {
      assert next[|at|] == |init|;
    }
    forall x | x in at ensures x < |init| {
      var i :| 0 <= i < |at| && at[i] == x;
    }
  }

  function Places(links: seq<string>, crawls: map<string, int>): seq<nat> {
    if links == [] then []
    else
      var init, last := links[..|links| - 1], links[|links| - 1];
      if last in crawls then Places(init, crawls) else Places(init, crawls) + [|init|]
  }

  /** What is left is the links not crawled yet, each as often and in the order it came. */
  lemma {:induction false} UnvisitedPicks(links: seq<string>, crawls: map<string, int>)
    ensures Picks(links, crawls, Unvisited(links, crawls), Places(links, crawls))
  {
    if links != [] {
      var init, last := links[..|links| - 1], links[|links| - 1];
      UnvisitedPicks(init, crawls);
      PickNext(init, last, crawls, Unvisited(init, crawls), Places(init, crawls));
      assert init + [last] == links;
    }
  }

  lemma {:induction false} UnvisitedElements(links: seq<string>, crawls: map<string, int>)
    ensures forall l :: l in Unvisited(links, crawls) <==> l in links && l !in crawls
  {
    if links != [] {
      var init, last := links[..|links| - 1], links[|links| - 1];
      UnvisitedElements(init, crawls);
      assert links == init + [last];
    }
  }

  /** The pages a crawl publishes: same base, depth one less. */
  function Children(page: Page, links: seq<string>): (pages: seq<Page>)
    ensures |pages| == |links| && forall i :: 0 <= i < |pages| ==> pages[i].depth == page.depth - 1
  {
    seq(|links|, i requires 0 <= i < |links| => Page(Trim(page.baseURL), Trim(links[i]), page.depth - 1))
  }

  /** What a run of the handler is meant to publish; a page that cannot be parsed publishes nothing and is no error. */
  function Meant(page: Page, fetched: Fetched, crawls: map<string, int>): seq<Page> {
    if fetched.Unreachable? || fetched.status != 200 || page.depth == 0 || fetched.links.None? then []
    else Children(page, Unvisited(fetched.links.value, crawls[page.url := fetched.status]))
  }

  /** The page published for a link: the same base, one level deeper. */
  predicate IsChild(page: Page, link: string, p: Page) {
    p == Page(Trim(page.baseURL), Trim(link), page.depth - 1)
  }

  /** A page published for a link of the fetched page that has not been crawled. */
  ghost predicate FromPage(page: Page, fetched: Fetched, crawls: map<string, int>, p: Page) {
    && fetched.Response? && fetched.links.Some?
    && exists l :: l in fetched.links.value && l !in crawls && IsChild(page, l, p)
  }

  lemma ChildrenOf(page: Page, links: seq<string>, p: Page)
    ensures p in Children(page, links) <==> exists l :: l in links && IsChild(page, l, p)
  {
    var pages := Children(page, links);
    if p in pages {
      var i :| 0 <= i < |pages| && pages[i] == p;
      assert links[i] in links && IsChild(page, links[i], p);
    }
    if l :| l in links && IsChild(page, l, p) {
      var i :| 0 <= i < |links| && links[i] == l;
      assert pages[i] == p;
    }
  }

  /** What is meant to be published, link by link. */
  lemma MeantPages(page: Page, fetched: Fetched, crawls: map<string, int>, p: Page)
    ensures p in Meant(page, fetched, crawls) <==>
            && fetched.Response? && fetched.status == 200 && page.depth != 0
            && FromPage(page, fetched, crawls[page.url := fetched.status], p)
  {
    if fetched.Response? && fetched.links.Some? {
      var seen := crawls[page.url := fetched.status];
      UnvisitedElements(fetched.links.value, seen);
      ChildrenOf(page, Unvisited(fetched.links.value, seen), p);
    }
  }

  class CrawlHandler {
    var crawls: map<string, int>
    /** What the handler has put on its queue. */
    var published: seq<Page>

    constructor ()
      ensures crawls == map[] && published == []
    {
      crawls, published := map[], [];
    }

    method AddCrawl(url: string, statusCode: int)
      modifies `crawls
      ensures crawls == old(crawls)[url := statusCode]
    {
      crawls := crawls[url := statusCode];
    }

    /** `Crawl`; the queue takes the publication or fails. */
    method Publish(baseURL: string, url: string, depth: int, accepted: bool) returns (ok: bool)
      modifies `published
      ensures ok == accepted
      ensures published == old(published) + if accepted then [Page(Trim(baseURL), Trim(url), depth)] else []
    {
      if accepted {
        published := published + [Page(Trim(baseURL), Trim(url), depth)];
      }
      ok := accepted;
    }

    method ExtractLinks(links: seq<string>) returns (filtered: seq<string>)
      ensures filtered == Unvisited(links, crawls)
      ensures forall l :: l in filtered <==> l in links && l !in crawls
      ensures exists at :: Picks(links, crawls, filtered, at)
    {
      filtered := [];
      for i := 0 to |links|
        invariant filtered == Unvisited(links[..i], crawls)
      {
        assert links[..i + 1][..i] == links[..i];
        if links[i] !in crawls {
          filtered := filtered + [links[i]];
        }
      }
      assert links[..|links|] == links;
      UnvisitedPicks(links, crawls);
      UnvisitedElements(links, crawls);
    }

    /** `Handle`: the payload is decoded, or the handler fails on it at once. */
    method Handle(payload: Option<Page>, fetched: Fetched, accepted: nat) returns (failed: bool)
      modifies this
      ensures payload.None? ==> failed && crawls == old(crawls) && published == old(published)
      ensures payload.Some? ==>
                var page, meant := payload.value, Meant(payload.value, fetched, old(crawls));
                && crawls == (if fetched.Unreachable? then old(crawls) else old(crawls)[page.url := fetched.status])
                && (failed <==> fetched.Unreachable? || accepted < |meant|)
                && published == old(published) + if accepted < |meant| then meant[..accepted] else meant
      ensures old(published) <= published
      ensures payload.Some? && fetched.Response? && (fetched.status != 200 || payload.value.depth == 0) ==>
                !failed && published == old(published)
      ensures payload.Some? ==>
                forall p :: p in published[|old(published)|..] ==> FromPage(payload.value, fetched, crawls, p)
      ensures payload.Some? && !failed && fetched.Response? && fetched.status == 200 && payload.value.depth != 0 ==>
                forall p :: FromPage(payload.value, fetched, crawls, p) ==> p in published[|old(published)|..]
    {
      if payload.None? {
        return true;
      }
      ghost var meant := Meant(payload.value, fetched, crawls);
      forall p ensures p in meant <==>
                       && fetched.Response? && fetched.status == 200 && payload.value.depth != 0
                       && FromPage(payload.value, fetched, crawls[payload.value.url := fetched.status], p)
      {
        MeantPages(payload.value, fetched, crawls, p);
      }
      failed := HandlePage(payload.value, fetched, accepted);
      assert published[|old(published)|..] == if accepted < |meant| then meant[..accepted] else meant;
      assert forall p :: p in published[|old(published)|..] ==> p in meant;
    }

    /** The rest of `Handle`; `accepted` is how many publications succeed before one fails. */
    method HandlePage(page: Page, fetched: Fetched, accepted: nat) returns (failed: bool)
      modifies this
      ensures crawls == if fetched.Unreachable? then old(crawls) else old(crawls)[page.url := fetched.status]
      ensures var meant := Meant(page, fetched, old(crawls));
              && (failed <==> fetched.Unreachable? || accepted < |meant|)
              && published == old(published) + if accepted < |meant| then meant[..accepted] else meant
    {
      if fetched.Unreachable? {
        return true;
      }
      AddCrawl(page.url, fetched.status);
      if fetched.status != 200 || page.depth == 0 || fetched.links.None? {
        return false;
      }
      var links := ExtractLinks(fetched.links.value);
      failed := PublishLinks(page, links, accepted);
    }

    /** The loop over the links, which ends at the first publication that fails. */
    method PublishLinks(page: Page, links: seq<string>, accepted: nat) returns (failed: bool)
      modifies `published
      ensures var meant := Children(page, links);
              && (failed <==> accepted < |meant|)
              && published == old(published) + if failed then meant[..accepted] else meant
    {
      ghost var before, meant := published, Children(page, links);
      for i := 0 to |links|
        invariant i <= accepted && published == before + meant[..i]
      {
        var ok := Publish(page.baseURL, links[i], page.depth - 1, i < accepted);
        if !ok {
          return true;
        }
        assert meant[..i + 1] == meant[..i] + [meant[i]];
      }
      assert meant[..|links|] == meant;
      failed := false;
    }
  }

  // The work

  /** A waiting crawl: its depth, and the retries it has left. */
  datatype Work = Work(depth: int, retries: nat)

  /** A delivery of `w` leaves `kids` behind, and `w` itself with a retry less if `again`. */
  ghost predicate Replaces(w: Work, kids: multiset<Work>, again: bool) {
    && (forall k :: k in kids ==> w.depth != 0 && k.depth == w.depth - 1)
    && (again ==> w.retries > 0)
  }

  function Remains(w: Work, kids: multiset<Work>, again: bool): multiset<Work> {
    if again && w.retries > 0 then kids + multiset{Work(w.depth, w.retries - 1)} else kids
  }

  /** One delivery of any waiting crawl. */
  ghost predicate Step(m: multiset<Work>, m': multiset<Work>) {
    exists w, kids, again ::
      w in m && Replaces(w, kids, again) && m' == m - multiset{w} + Remains(w, kids, again)
  }

  function Works(pages: seq<Page>, retries: nat): multiset<Work> {
    if pages == [] then multiset{}
    else Works(pages[..|pages| - 1], retries) + multiset{Work(pages[|pages| - 1].depth, retries)}
  }

  lemma {:induction false} WorksDepth(pages: seq<Page>, retries: nat, depth: int)
    requires forall i :: 0 <= i < |pages| ==> pages[i].depth == depth
    ensures forall w :: w in Works(pages, retries) ==> w.depth == depth
  {
    if pages != [] {
      WorksDepth(pages[..|pages| - 1], retries, depth);
    }
  }

  /**
   Whatever page is delivered, however the fetch and the publications go, and whether the delivery is retried, times out
   or settles, the waiting work makes a step.
   */
  lemma HandleSteps(m: multiset<Work>, page: Page, retries: nat, fetched: Fetched, crawls: map<string, int>,
                    accepted: nat, granted: nat, again: bool)
    requires Work(page.depth, retries) in m && (again ==> retries > 0)
    ensures var meant := Meant(page, fetched, crawls);
            var kids := Works(if accepted < |meant| then meant[..accepted] else meant, granted);
            var w := Work(page.depth, retries);
            Step(m, m - multiset{w} + Remains(w, kids, again))
  {
    var meant := Meant(page, fetched, crawls);
    var pages := if accepted < |meant| then meant[..accepted] else meant;
    WorksDepth(pages, granted, page.depth - 1);
    if page.depth == 0 {
      assert Works(pages, granted) == multiset{};
    }
    assert Replaces(Work(page.depth, retries), Works(pages, granted), again);
  }

  /** Every sequence of deliveries from here ends. */
  least predicate Drains(m: multiset<Work>) {
    forall m' :: Step(m, m') ==> Drains(m')
  }

  /** Adding `w` to work that drains gives work that drains. */
  ghost predicate Harmless(w: Work) {
    forall m :: Drains(m) ==> Drains(m + multiset{w})
  }

  lemma {:induction false} AddAll(m: multiset<Work>, kids: multiset<Work>)
    requires Drains(m) && forall k :: k in kids ==> Harmless(k)
    ensures Drains(m + kids)
    decreases |kids|
  {
    if kids == multiset{} {
      assert m + kids == m;
    } else {
      var k :| k in kids;
      AddAll(m, kids - multiset{k});
      assert Harmless(k);
      assert m + kids == m + (kids - multiset{k}) + multiset{k};
    }
  }

  /** Taking `x` out of a sum and putting `r` in happens in one of the two parts. */
  lemma Exchange(m: multiset<Work>, w: Work, x: Work, r: multiset<Work>)
    requires x in m + multiset{w}
    ensures x == w ==> m + multiset{w} - multiset{x} + r == m + r
    ensures x != w ==> x in m && m + multiset{w} - multiset{x} + r == m - multiset{x} + r + multiset{w}
  {
  }

  lemma {:induction false} AddOne(k: ORDINAL, m: multiset<Work>, w: Work)
    requires Drains#[k](m)
    requires forall kids, again :: Replaces(w, kids, again) ==> forall x :: x in Remains(w, kids, again) ==> Harmless(x)
    ensures Drains(m + multiset{w})
    decreases k
  {
    if k.IsLimit {
      if k' :| k' < k && Drains#[k'](m) {
        AddOne(k', m, w);
      }
    } else {
      var sum := m + multiset{w};
      forall m' | Step(sum, m') ensures Drains(m') {
        var x, kids, again :| x in sum && Replaces(x, kids, again) && m' == sum - multiset{x} + Remains(x, kids, again);
        Exchange(m, w, x, Remains(x, kids, again));
        if x == w {
          AddAll(m, Remains(w, kids, again));
        } else {
          var m1 := m - multiset{x} + Remains(x, kids, again);
          assert Step(m, m1);
          AddOne(k - 1, m1, w);
        }
      }
    }
  }

  /** Every crawl of depth 0 or more is harmless: by induction on its depth, then on its retries. */
  lemma {:induction false} AllHarmless(w: Work)
    requires w.depth >= 0
    ensures Harmless(w)
    decreases w.depth, w.retries
  {
    forall kids, again, x | Replaces(w, kids, again) && x in Remains(w, kids, again) ensures Harmless(x) {
      if x in kids {
        AllHarmless(x);
      } else {
        AllHarmless(Work(w.depth, w.retries - 1));
      }
    }
    forall m | Drains(m) ensures Drains(m + multiset{w}) {
      var k: ORDINAL :| Drains#[k](m);
      AddOne(k, m, w);
    }
  }

  /** A crawl of negative depth passes the test for depth 0 and can publish ever deeper ones. */
  lemma {:induction false} NegativeNeverDrains(k: ORDINAL, m: multiset<Work>, w: Work)
    requires w in m && w.depth < 0
    ensures !Drains#[k](m)
    decreases k
  {
    if Drains#[k](m) {
      if k.IsLimit {
        var k' :| k' < k && Drains#[k'](m);
        NegativeNeverDrains(k', m, w);
      } else {
        var child := Work(w.depth - 1, 0);
        var m' := m - multiset{w} + Remains(w, multiset{child}, false);
        assert Replaces(w, multiset{child}, false);
        assert Step(m, m');
        NegativeNeverDrains(k - 1, m', child);
      }
    }
  }

  /**
   Crawling terminates exactly when no crawl starts with a negative depth: any number of links per page, failures after
   any number of publications, and any order of deliveries.
   */
  lemma CrawlingTerminates(m: multiset<Work>)
    ensures Drains(m) <==> forall w :: w in m ==> w.depth >= 0
  {
    if forall w :: w in m ==> w.depth >= 0 {
      forall w | w in m ensures Harmless(w) {
        AllHarmless(w);
      }
      assert Drains(multiset{});
      AddAll(multiset{}, m);
      assert multiset{} + m == m;
    } else {
      var w :| w in m && w.depth < 0;
      forall k: ORDINAL ensures !Drains#[k](m) {
        NegativeNeverDrains(k, m, w);
      }
    }
  }

  /** No infinite sequence of deliveries starts from work that drains. */
  lemma {:induction false} NoInfiniteRun(k: ORDINAL, run: nat -> multiset<Work>, i: nat)
    requires Drains#[k](run(i))
    ensures exists j :: j >= i && !Step(run(j), run(j + 1))
    decreases k
  {
    if k.IsLimit {
      var k' :| k' < k && Drains#[k'](run(i));
      NoInfiniteRun(k', run, i);
    } else if Step(run(i), run(i + 1)) {
      NoInfiniteRun(k - 1, run, i + 1);
    }
  }

  lemma EveryRunEnds(run: nat -> multiset<Work>)
    requires forall w :: w in run(0) ==> w.depth >= 0
    ensures exists j: nat :: !Step(run(j), run(j + 1))
  {
    CrawlingTerminates(run(0));
    var k: ORDINAL :| Drains#[k](run(0));
    NoInfiniteRun(k, run, 0);
  }
}
