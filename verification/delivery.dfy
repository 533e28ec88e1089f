/**
 * Instant delivery: for each category in order, fetch its items, send the
 * first `cap` of them one by one, and count and record what was sent. A
 * category whose fetch fails is skipped. Sending is a no-op here: the send
 * wrapper catches its own errors, so every attempted send is counted.
 */
module Delivery {
  import opened Basics
  import opened News

  /** The record kept for each item sent: its title, the category it was fetched for, its link. */
  datatype SentItem = SentItem(title: string, category: string, sourceUrl: string)

  /** `newsList.slice(0, cap)`. */
  function Take(items: seq<NewsItem>, cap: nat): (r: seq<NewsItem>)
    ensures |r| == Min(cap, |items|) && r == items[..|r|]
  {
    items[..Min(cap, |items|)]
  }

  /** The records for `items`, all sent for category `c`, in item order. */
  function Batch(c: string, items: seq<NewsItem>): (r: seq<SentItem>)
    ensures |r| == |items|
    ensures forall k :: 0 <= k < |r| ==> r[k] == SentItem(items[k].title, c, items[k].sourceUrl)
  {
    if items == [] then []
    else Batch(c, items[..|items| - 1]) + [SentItem(items[|items| - 1].title, c, items[|items| - 1].sourceUrl)]
  }

  /** What is sent for one category: the records of its first `cap` items, or nothing when its fetch fails. */
  function Part(c: string, feed: Feed, cap: nat): (r: seq<SentItem>)
    ensures |r| <= cap
    ensures c in feed ==> |r| == Min(cap, |feed[c]|)
    ensures c in feed ==> forall k :: 0 <= k < |r| ==> r[k] == SentItem(feed[c][k].title, c, feed[c][k].sourceUrl)
    ensures c !in feed ==> r == []
  {
    if c in feed then Batch(c, Take(feed[c], cap)) else []
  }

  /** Everything sent for `cats`, category by category, then item by item. */
  function Sent(cats: seq<string>, feed: Feed, cap: nat): seq<SentItem> {
    if cats == [] then []
    else
      var c := cats[|cats| - 1];
      Sent(cats[..|cats| - 1], feed, cap) + Part(c, feed, cap)
  }

  /** The number of items sent: the sum of min(cap, |items|) over the categories whose fetch succeeds. */
  function Count(cats: seq<string>, feed: Feed, cap: nat): nat {
    if cats == [] then 0
    else
      var c := cats[|cats| - 1];
      Count(cats[..|cats| - 1], feed, cap) + (if c in feed then Min(cap, |feed[c]|) else 0)
  }

  /** One record per counted send. */
  lemma {:induction false} SentLength(cats: seq<string>, feed: Feed, cap: nat)
    ensures |Sent(cats, feed, cap)| == Count(cats, feed, cap)
    decreases |cats|
  {
    if cats != [] {
      SentLength(cats[..|cats| - 1], feed, cap);
    }
  }

  /** In total, no more than `cap` items for each category of the list. */
  lemma {:induction false} CountBound(cats: seq<string>, feed: Feed, cap: nat)
    ensures Count(cats, feed, cap) <= cap * |cats|
    decreases |cats|
  {
    if cats != [] {
      CountBound(cats[..|cats| - 1], feed, cap);
    }
  }

  /** Delivery over two lists of categories is delivery over the first, then over the second. */
  lemma {:induction false} SentConcat(a: seq<string>, b: seq<string>, feed: Feed, cap: nat)
    ensures Sent(a + b, feed, cap) == Sent(a, feed, cap) + Sent(b, feed, cap)
    decreases |b|
  {
    if b == [] {
      assert a + b == a;
    } else {
      var b', c := b[..|b| - 1], b[|b| - 1];
      assert (a + b)[..|a + b| - 1] == a + b';
      assert (a + b)[|a + b| - 1] == c;
      calc {
        Sent(a + b, feed, cap);
        Sent(a + b', feed, cap) + Part(c, feed, cap);
        { SentConcat(a, b', feed, cap); }
        Sent(a, feed, cap) + Sent(b', feed, cap) + Part(c, feed, cap);
        Sent(a, feed, cap) + (Sent(b', feed, cap) + Part(c, feed, cap));
        Sent(a, feed, cap) + Sent(b, feed, cap);
      }
    }
  }

  /** A category whose fetch fails contributes nothing and does not stop the categories after it. */
  lemma FailedCategorySkipped(a: seq<string>, c: string, b: seq<string>, feed: Feed, cap: nat)
    requires c !in feed
    ensures Sent(a + [c] + b, feed, cap) == Sent(a + b, feed, cap)
  {
    assert [c][..0] == [];
    assert Sent([c], feed, cap) == [];
    calc {
      Sent(a + [c] + b, feed, cap);
      { SentConcat(a + [c], b, feed, cap); }
      Sent(a + [c], feed, cap) + Sent(b, feed, cap);
      { SentConcat(a, [c], feed, cap); assert Sent(a, feed, cap) + [] == Sent(a, feed, cap); }
      Sent(a, feed, cap) + Sent(b, feed, cap);
      { SentConcat(a, b, feed, cap); }
      Sent(a + b, feed, cap);
    }
  }

  /**
   * Every record names a category from the list whose fetch succeeded, and
   * is one of the first `cap` items fetched for it.
   */
  lemma {:induction false} SentFromFeed(cats: seq<string>, feed: Feed, cap: nat)
    ensures forall e :: e in Sent(cats, feed, cap) ==>
      e.category in cats && e.category in feed &&
      exists k :: 0 <= k < Min(cap, |feed[e.category]|) && e == SentItem(feed[e.category][k].title, e.category, feed[e.category][k].sourceUrl)
    decreases |cats|
  {
    if cats != [] {
      var init := cats[..|cats| - 1];
      var c := cats[|cats| - 1];
      SentFromFeed(init, feed, cap);
      forall e | e in Sent(cats, feed, cap)
        ensures e.category in cats && e.category in feed
        ensures exists k :: 0 <= k < Min(cap, |feed[e.category]|) && e == SentItem(feed[e.category][k].title, e.category, feed[e.category][k].sourceUrl)
      {
        if e in Sent(init, feed, cap) {
          assert e.category in init;
        } else {
          assert c in feed;
          var batch := Batch(c, Take(feed[c], cap));
          var k :| 0 <= k < |batch| && batch[k] == e;
          assert e.category == c;
        }
      }
    }
  }

  /** The inner loop: sends `items` one by one for category `c`, counting and recording each. */
  method SendBatch(c: string, items: seq<NewsItem>, count0: nat, sent0: seq<SentItem>) returns (count: nat, sent: seq<SentItem>)
    requires count0 == |sent0|
    ensures sent == sent0 + Batch(c, items)
    ensures count == |sent|
  {
    count, sent := count0, sent0;
    var k := 0;
    while k < |items|
      invariant 0 <= k <= |items|
      invariant sent == sent0 + Batch(c, items[..k])
      invariant count == |sent|
    {
      sent := sent + [SentItem(items[k].title, c, items[k].sourceUrl)];
      count := count + 1;
      assert items[..k + 1][..k] == items[..k];
      k := k + 1;
    }
    assert items[..k] == items;
  }

  /**
   * The delivery loop: sends up to `cap` items of every category whose fetch
   * succeeds, incrementing the count and recording each send.
   */
  method Deliver(cats: seq<string>, feed: Feed, cap: nat) returns (count: nat, sent: seq<SentItem>)
    ensures sent == Sent(cats, feed, cap)
    ensures count == |sent| == Count(cats, feed, cap)
  {
    count, sent := 0, [];
    var i := 0;
    while i < |cats|
      invariant 0 <= i <= |cats|
      invariant sent == Sent(cats[..i], feed, cap)
      invariant count == |sent|
    {
      var c := cats[i];
      if c in feed {
        count, sent := SendBatch(c, Take(feed[c], cap), count, sent);
      }
      assert cats[..i + 1][..i] == cats[..i];
      assert Sent(cats[..i + 1], feed, cap) == Sent(cats[..i], feed, cap) + Part(c, feed, cap);
      i := i + 1;
    }
    assert cats[..i] == cats;
    SentLength(cats, feed, cap);
  }
}
