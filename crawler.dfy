/** `fetch_cat_urls`: read listing pages 0, 1, 2, ... and collect the distinct,
    non-empty hrefs of their profile anchors in the order they are first seen. */
module Crawler {
  import opened Wrappers

  /** The `href` attribute of one matched anchor; None when the attribute is absent. */
  type Anchor = Option<string>

  /** The anchors a listing page matches, in document order. */
  type Page = seq<Anchor>

  /** Listing page p; the site has finitely many, and a page past the last one matches no anchor. */
  function PageAt(pages: seq<Page>, p: nat): Page
  {
    if p < |pages| then pages[p] else []
  }

  /** `cat.attrib.get('href')` is truthy: present and not empty. */
  predicate IsLink(a: Anchor)
  {
    a.Some? && a.value != ""
  }

  /** All anchors of the first n pages, in reading order. */
  function AnchorsOf(pages: seq<Page>, n: nat): seq<Anchor>
  {
    if n == 0 then [] else AnchorsOf(pages, n - 1) + PageAt(pages, n - 1)
  }

  /** Lines 95-96 for one anchor. */
  function Add(cats: seq<string>, a: Anchor): seq<string>
  {
    if IsLink(a) && a.value !in cats then cats + [a.value] else cats
  }

  /** The list built from a stream of anchors. */
  function Collect(anchors: seq<Anchor>): seq<string>
  {
    if anchors == [] then [] else Add(Collect(anchors[..|anchors| - 1]), anchors[|anchors| - 1])
  }

  lemma CollectStep(anchors: seq<Anchor>, a: Anchor)
    ensures Collect(anchors + [a]) == Add(Collect(anchors), a)
  {
    assert (anchors + [a])[..|anchors|] == anchors;
  }

  /** Reading the anchors of a page one at a time. */
  lemma CollectPrefixStep(before: seq<Anchor>, anchors: seq<Anchor>, k: nat)
    requires k < |anchors|
    ensures Collect(before + anchors[..k + 1]) == Add(Collect(before + anchors[..k]), anchors[k])
  {
    assert before + anchors[..k + 1] == (before + anchors[..k]) + [anchors[k]];
    CollectStep(before + anchors[..k], anchors[k]);
  }

  predicate NoDuplicates(s: seq<string>)
  {
    forall i, j :: 0 <= i < j < |s| ==> s[i] != s[j]
  }

  /** The index of the first anchor whose href is h. */
  function FirstIndex(anchors: seq<Anchor>, h: string): (k: nat)
    requires Some(h) in anchors
    ensures k < |anchors| && anchors[k] == Some(h)
  {
    if anchors[0] == Some(h) then 0 else 1 + FirstIndex(anchors[1..], h)
  }

  /** The collected list holds exactly the non-empty hrefs seen, each once. */
  lemma {:induction false} CollectContents(anchors: seq<Anchor>)
    ensures NoDuplicates(Collect(anchors))
    ensures forall h :: h in Collect(anchors) <==> h != "" && Some(h) in anchors
    decreases |anchors|
  {
    if anchors != [] {
      var init := anchors[..|anchors| - 1];
      CollectContents(init);
      assert anchors == init + [anchors[|anchors| - 1]];
    }
  }

  /** Of two entries of c, the earlier one first appears earlier among the anchors. */
  predicate FirstSeenOrder(c: seq<string>, anchors: seq<Anchor>)
  {
    (forall i :: 0 <= i < |c| ==> Some(c[i]) in anchors) &&
    forall i, j :: 0 <= i < j < |c| ==>
      Some(c[i]) in anchors && Some(c[j]) in anchors && FirstIndex(anchors, c[i]) < FirstIndex(anchors, c[j])
  }

  /** The collected list is in first-seen order. */
  lemma {:induction false} CollectFirstSeenOrder(anchors: seq<Anchor>)
    ensures FirstSeenOrder(Collect(anchors), anchors)
    decreases |anchors|
  {
    if anchors != [] {
      var n := |anchors| - 1;
      var init := anchors[..n];
      var a := anchors[n];
      var c := Collect(init);
      CollectFirstSeenOrder(init);
      CollectContents(init);
      assert anchors == init + [a];
      forall h | Some(h) in init
        ensures FirstIndex(anchors, h) == FirstIndex(init, h)
      {
        FirstIndexOfPrefix(init, a, h);
      }
      var all := Collect(anchors);
      assert all == Add(c, a);
      if all == c {
        assert FirstSeenOrder(all, anchors);
      } else {
        assert all == c + [a.value] && a !in init;
        FirstIndexOfNew(init, a);
        assert forall i :: 0 <= i < |c| ==> Some(c[i]) in init;
        assert FirstSeenOrder(all, anchors);
      }
    } else {
      assert Collect(anchors) == [];
    }
  }

  lemma {:induction false} FirstIndexOfPrefix(init: seq<Anchor>, a: Anchor, h: string)
    requires Some(h) in init
    ensures FirstIndex(init + [a], h) == FirstIndex(init, h)
    decreases |init|
  {
    if init[0] != Some(h) {
      assert (init + [a])[1..] == init[1..] + [a];
      FirstIndexOfPrefix(init[1..], a, h);
    }
  }

  lemma {:induction false} FirstIndexOfNew(init: seq<Anchor>, a: Anchor)
    requires a.Some? && a !in init
    ensures FirstIndex(init + [a], a.value) == |init|
    decreases |init|
  {
    if init != [] {
      assert (init + [a])[1..] == init[1..] + [a];
      FirstIndexOfNew(init[1..], a);
    }
  }

  /** Earlier results are never reordered or dropped: reading more anchors only appends. */
  lemma {:induction false} CollectExtends(anchors: seq<Anchor>, more: seq<Anchor>)
    ensures Collect(anchors) <= Collect(anchors + more)
    decreases |more|
  {
    if more != [] {
      var m := |more| - 1;
      CollectExtends(anchors, more[..m]);
      assert anchors + more == (anchors + more[..m]) + [more[m]];
      CollectStep(anchors + more[..m], more[m]);
    } else {
      assert anchors + more == anchors;
    }
  }

  lemma AnchorsStep(pages: seq<Page>, n: nat)
    ensures AnchorsOf(pages, n + 1) == AnchorsOf(pages, n) + PageAt(pages, n)
  {
  }

  /** Lines 93-96, listing page p: `new_cats` starts as the matched anchors
      (true when there are any) and each href not seen before is appended. */
  method ScanPage(ghost pages: seq<Page>, ghost p: nat, cats: seq<string>, anchors: Page)
    returns (newCats: seq<string>, found: bool)
    requires anchors == PageAt(pages, p) && cats == Collect(AnchorsOf(pages, p))
    ensures newCats == Collect(AnchorsOf(pages, p + 1))
    ensures found == (|anchors| > 0)
  {
    ghost var before := AnchorsOf(pages, p);
    AnchorsStep(pages, p);
    newCats := cats;
    found := |anchors| > 0;
    assert before + anchors[..0] == before;
    for k := 0 to |anchors|
      invariant newCats == Collect(before + anchors[..k])
      invariant found == (|anchors| > 0)
    {
      CollectPrefixStep(before, anchors, k);
      var href := anchors[k];
      if href.Some? && href.value != "" && href.value !in newCats {
        newCats := newCats + [href.value];
        found := true;
      }
    }
    assert anchors[..|anchors|] == anchors;
  }

  /** `fetch_cat_urls` over a finite listing.  Returns the list and how many pages
      were requested (the "Reading page" messages). */
  method FetchCatUrls(pages: seq<Page>) returns (cats: seq<string>, pagesRead: nat)
    ensures pagesRead >= 1
    ensures |PageAt(pages, pagesRead - 1)| == 0
    ensures forall p :: 0 <= p < pagesRead - 1 ==> |PageAt(pages, p)| > 0
    ensures cats == Collect(AnchorsOf(pages, pagesRead))
    ensures NoDuplicates(cats)
    ensures forall h :: h in cats <==> h != "" && Some(h) in AnchorsOf(pages, pagesRead)
    ensures FirstSeenOrder(cats, AnchorsOf(pages, pagesRead))
  {
    cats := [];
    var newCats := true;
    var page: nat := 0;
    while newCats
      invariant cats == Collect(AnchorsOf(pages, page))
      invariant newCats == (page == 0 || |PageAt(pages, page - 1)| > 0)
      invariant forall p :: 0 <= p < page - 1 ==> |PageAt(pages, p)| > 0
      invariant page <= |pages| + 1
      decreases |pages| + 1 - page
    {
      var anchors := PageAt(pages, page);
      cats, newCats := ScanPage(pages, page, cats, anchors);
      page := page + 1;
    }
    pagesRead := page;
    CollectContents(AnchorsOf(pages, pagesRead));
    CollectFirstSeenOrder(AnchorsOf(pages, pagesRead));
  }
}
