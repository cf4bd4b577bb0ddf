/** Scraping one feed: each valid item becomes a post, and each new post one notification
    intent for every follower. */
module Scraper {
  import opened Types
  import opened Ingest
  import opened Machine
  import opened Runtime
  import opened Store
  import Contract
  import Relay
  import Requests
  import Scheduler

  datatype Item = Item(title: string, link: string, description: string, pubDate: string)

  /** What the standard library says about dates, layout by layout, and about links. */
  datatype Reader = Reader(layouts: seq<string -> Option<Time>>, parse: string -> UrlParse)

  /** A post without its generated identifier. */
  datatype Content = Content(feed: Uuid, title: string, description: Option<string>, publishedAt: Time, url: Url)

  /** The first layout that fits decides. */
  function FirstParsed(layouts: seq<string -> Option<Time>>, value: string): Option<Time> {
    if layouts == [] then None
    else if layouts[0](value).Some? then layouts[0](value)
    else FirstParsed(layouts[1..], value)
  }

  function PublishedAt(layouts: seq<string -> Option<Time>>, value: string): Option<Time> {
    if Contract.TrimSpace(value) == "" then None else FirstParsed(layouts, Contract.TrimSpace(value))
  }

  /** The post an item stands for; None for an item that is skipped. */
  function ContentOf(reader: Reader, feed: Uuid, item: Item): Option<Content> {
    var title, link, text := Contract.TrimSpace(item.title), Contract.TrimSpace(item.link), Contract.TrimSpace(item.description);
    var date := PublishedAt(reader.layouts, item.pubDate);
    if title == "" || link == "" || date.None? then None
    else Some(Content(feed, title, if text == "" then None else Some(text), date.value, Url(link, reader.parse(link))))
  }

  /** The posts of the valid items, in order. */
  function Wanted(reader: Reader, feed: Uuid, items: seq<Item>): seq<Content> {
    if items == [] then []
    else
      var front := Wanted(reader, feed, items[..|items| - 1]);
      match ContentOf(reader, feed, items[|items| - 1])
      case None => front
      case Some(c) => front + [c]
  }

  type Contents = map<string, Content>

  /** `ON CONFLICT (url) DO NOTHING`, item by item. */
  function Stored(c: Contents, wanted: seq<Content>): Contents {
    if wanted == [] then c
    else
      var front, last := Stored(c, wanted[..|wanted| - 1]), wanted[|wanted| - 1];
      if last.url.text in front then front else front[last.url.text := last]
  }

  function Links(wanted: seq<Content>): set<string> {
    set i | 0 <= i < |wanted| :: wanted[i].url.text
  }

  // ----- The tables -----

  datatype State = State(posts: map<string, Post>, events: Outbox)

  function Without(p: Post): Content {
    Content(p.feed, p.title, p.description, p.publishedAt, p.url)
  }

  function ContentsOf(posts: map<string, Post>): Contents {
    map k | k in posts :: Without(posts[k])
  }

  function Followers(follows: set<(Uuid, Uuid)>, feed: Uuid): set<Uuid> {
    set f | f in follows && f.1 == feed :: f.0
  }

  function Intents(ids: map<Uuid, Uuid>, post: Post, now: Time): Outbox {
    map id | id in ids :: NewIntent(id, ids[id], post, now)
  }

  /** One statement: the post, and the intents only if the post is new. `ids` are the
      generated intent ids, each with its follower. */
  function Saved(st: State, post: Post, ids: map<Uuid, Uuid>, now: Time): State {
    if post.url.text in st.posts then st
    else State(st.posts[post.url.text := post], st.events + Intents(ids, post, now))
  }

  /** A row is the intent of one post for one of the feed's followers. */
  predicate IsIntentOf(row: OutboxRow, id: Uuid, post: Post, follows: set<(Uuid, Uuid)>) {
    row.origin.IntentOf? && row.origin.user in Followers(follows, post.feed)
    && row == NewIntent(id, row.origin.user, post, row.createdAt)
  }

  predicate Has(events: Outbox, before: Outbox, origin: Origin) {
    exists id :: id in events && id !in before && events[id].origin == origin
  }

  predicate New(a: State, b: State, k: string) {
    k in b.posts && k !in a.posts
  }

  ghost predicate RowsBelong(a: State, b: State, follows: set<(Uuid, Uuid)>) {
    forall id :: id in b.events && id !in a.events ==>
      exists k :: New(a, b, k) && IsIntentOf(b.events[id], id, b.posts[k], follows)
  }

  ghost predicate RowsCover(a: State, b: State, follows: set<(Uuid, Uuid)>) {
    forall k, u :: New(a, b, k) && u in Followers(follows, b.posts[k].feed) ==>
      Has(b.events, a.events, IntentOf(b.posts[k].id, u))
  }

  ghost predicate RowsUnique(a: State, b: State) {
    forall i, j :: i in b.events && j in b.events && i !in a.events && j !in a.events ==>
      (b.events[i].origin == b.events[j].origin ==> i == j)
  }

  ghost predicate Kept(a: State, b: State) {
    && (forall k :: k in a.posts ==> k in b.posts && b.posts[k] == a.posts[k])
    && (forall id :: id in a.events ==> id in b.events && b.events[id] == a.events[id])
  }

  /** From a to b nothing changed or went away, and the new intents are exactly one for
      every new post and follower of its feed. */
  ghost predicate Grown(a: State, b: State, follows: set<(Uuid, Uuid)>) {
    Kept(a, b) && RowsBelong(a, b, follows) && RowsCover(a, b, follows) && RowsUnique(a, b)
  }

  ghost predicate PostIdsUnique(posts: map<string, Post>) {
    forall k, l :: k in posts && l in posts && posts[k].id == posts[l].id ==> k == l
  }

  /** What scraping a list of posts does: every one of them is stored, the earliest of
      several with one link, nothing else is added, and the new ones are announced. */
  ghost predicate Scraped(a: State, b: State, follows: set<(Uuid, Uuid)>, wanted: seq<Content>) {
    ContentsOf(b.posts) == Stored(ContentsOf(a.posts), wanted) && Grown(a, b, follows)
  }

  // ----- What is stored -----

  /** Exactly the wanted links are added, and what was there stays. */
  lemma {:induction false} StoredExactly(c: Contents, wanted: seq<Content>)
    ensures Stored(c, wanted).Keys == c.Keys + Links(wanted)
    ensures forall k :: k in c ==> Stored(c, wanted)[k] == c[k]
    decreases |wanted|
  {
    if wanted != [] {
      var front, last := wanted[..|wanted| - 1], wanted[|wanted| - 1];
      StoredExactly(c, front);
      assert wanted == front + [last];
      assert Links(wanted) == Links(front) + {last.url.text} by {
        assert wanted[|wanted| - 1] == last;
        forall x | x in Links(wanted) ensures x in Links(front) + {last.url.text} {
          var i :| 0 <= i < |wanted| && wanted[i].url.text == x;
          assert i < |front| ==> front[i] == wanted[i];
        }
        forall x | x in Links(front) ensures x in Links(wanted) {
          var i :| 0 <= i < |front| && front[i].url.text == x;
          assert wanted[i] == front[i];
        }
      }
    } else {
      assert Links(wanted) == {};
    }
  }

  /** Of several new items with one link, the first is stored. */
  lemma {:induction false} FirstWins(c: Contents, wanted: seq<Content>, n: nat)
    requires n < |wanted| && wanted[n].url.text !in c
    requires forall i :: 0 <= i < n ==> wanted[i].url.text != wanted[n].url.text
    ensures wanted[n].url.text in Stored(c, wanted) && Stored(c, wanted)[wanted[n].url.text] == wanted[n]
    decreases |wanted|
  {
    var front := wanted[..|wanted| - 1];
    if n == |wanted| - 1 {
      StoredExactly(c, front);
      assert forall i :: 0 <= i < |front| ==> front[i] == wanted[i];
    } else {
      assert front[n] == wanted[n];
      FirstWins(c, front, n);
    }
  }

  /** Storing one list and then another is storing both. */
  lemma {:induction false} StoredTwice(c: Contents, first: seq<Content>, second: seq<Content>)
    ensures Stored(Stored(c, first), second) == Stored(c, first + second)
    decreases |second|
  {
    if second == [] {
      assert first + second == first;
    } else {
      var both := first + second;
      assert both[..|both| - 1] == first + second[..|second| - 1];
      StoredTwice(c, first, second[..|second| - 1]);
    }
  }

  /** Storing what is already there changes nothing. */
  lemma {:induction false} StoredAgain(c: Contents, wanted: seq<Content>)
    requires Links(wanted) <= c.Keys
    ensures Stored(c, wanted) == c
    decreases |wanted|
  {
    if wanted != [] {
      var front := wanted[..|wanted| - 1];
      assert Links(front) <= Links(wanted) by {
        forall x | x in Links(front) ensures x in Links(wanted) {
          var i :| 0 <= i < |front| && front[i].url.text == x;
          assert wanted[i] == front[i];
        }
      }
      StoredAgain(c, front);
      assert wanted[|wanted| - 1].url.text in Links(wanted);
    }
  }

  /** Stopping after a prefix and starting over stores what one full pass stores. */
  lemma StoredResumes(c: Contents, wanted: seq<Content>, n: nat)
    requires n <= |wanted|
    ensures Stored(Stored(c, wanted[..n]), wanted) == Stored(c, wanted)
  {
    var done := Stored(c, wanted[..n]);
    assert wanted[..n] + wanted[n..] == wanted;
    StoredExactly(c, wanted[..n]);
    StoredAgain(done, wanted[..n]);
    StoredTwice(done, wanted[..n], wanted[n..]);
    StoredTwice(c, wanted[..n], wanted[n..]);
  }

  lemma WantedOneMore(reader: Reader, feed: Uuid, items: seq<Item>, i: nat)
    requires i < |items|
    ensures var before := Wanted(reader, feed, items[..i]);
            Wanted(reader, feed, items[..i + 1]) ==
            match ContentOf(reader, feed, items[i]) case None => before case Some(c) => before + [c]
  {
    assert items[..i + 1][..i] == items[..i];
  }

  lemma {:induction false} WantedPrefix(reader: Reader, feed: Uuid, items: seq<Item>, n: nat)
    requires n <= |items|
    ensures Wanted(reader, feed, items[..n]) <= Wanted(reader, feed, items)
    decreases |items| - n
  {
    hide ContentOf;
    if n < |items| {
      WantedPrefix(reader, feed, items, n + 1);
      assert items[..n + 1][..n] == items[..n];
    } else {
      assert items[..n] == items;
    }
  }

  // ----- What is announced -----

  lemma GrownSelf(a: State, follows: set<(Uuid, Uuid)>)
    ensures Grown(a, a, follows)
  {
  }

  lemma GrownTrans(a: State, b: State, c: State, follows: set<(Uuid, Uuid)>)
    requires Grown(a, b, follows) && Grown(b, c, follows) && PostIdsUnique(c.posts)
    ensures Grown(a, c, follows)
  {
    BelongTrans(a, b, c, follows);
    CoverTrans(a, b, c, follows);
    UniqueTrans(a, b, c, follows);
  }

  lemma BelongTrans(a: State, b: State, c: State, follows: set<(Uuid, Uuid)>)
    requires Kept(a, b) && Kept(b, c) && RowsBelong(a, b, follows) && RowsBelong(b, c, follows)
    ensures RowsBelong(a, c, follows)
  {
    hide IsIntentOf;
    forall id | id in c.events && id !in a.events
      ensures exists k :: New(a, c, k) && IsIntentOf(c.events[id], id, c.posts[k], follows)
    {
      if id in b.events {
        var k :| New(a, b, k) && IsIntentOf(b.events[id], id, b.posts[k], follows);
        assert New(a, c, k);
      } else {
        var k :| New(b, c, k) && IsIntentOf(c.events[id], id, c.posts[k], follows);
        assert New(a, c, k);
      }
    }
  }

  lemma CoverTrans(a: State, b: State, c: State, follows: set<(Uuid, Uuid)>)
    requires Kept(a, b) && Kept(b, c) && RowsCover(a, b, follows) && RowsCover(b, c, follows)
    ensures RowsCover(a, c, follows)
  {
    hide Followers;
    forall k, u | New(a, c, k) && u in Followers(follows, c.posts[k].feed)
      ensures Has(c.events, a.events, IntentOf(c.posts[k].id, u))
    {
      var origin := IntentOf(c.posts[k].id, u);
      if k in b.posts {
        assert New(a, b, k) && Has(b.events, a.events, origin);
        var id :| id in b.events && id !in a.events && b.events[id].origin == origin;
        assert c.events[id].origin == origin;
      } else {
        assert New(b, c, k) && Has(c.events, b.events, origin);
        var id :| id in c.events && id !in b.events && c.events[id].origin == origin;
        assert id !in a.events;
      }
    }
  }

  lemma UniqueTrans(a: State, b: State, c: State, follows: set<(Uuid, Uuid)>)
    requires Kept(a, b) && Kept(b, c) && RowsUnique(a, b) && RowsUnique(b, c)
    requires RowsBelong(a, b, follows) && RowsBelong(b, c, follows) && PostIdsUnique(c.posts)
    ensures RowsUnique(a, c)
  {
    forall i, j | i in c.events && j in c.events && i !in a.events && j !in a.events
                  && c.events[i].origin == c.events[j].origin
      ensures i == j
    {
      if i in b.events && j !in b.events {
        OriginsApart(a, b, c, follows, i, j);
      }
      if j in b.events && i !in b.events {
        OriginsApart(a, b, c, follows, j, i);
      }
    }
  }

  /** An intent written later announces another post. */
  lemma OriginsApart(a: State, b: State, c: State, follows: set<(Uuid, Uuid)>, i: Uuid, j: Uuid)
    requires Kept(b, c) && RowsBelong(a, b, follows) && RowsBelong(b, c, follows) && PostIdsUnique(c.posts)
    requires i in b.events && i !in a.events && j in c.events && j !in b.events
    ensures c.events[i].origin != c.events[j].origin
  {
    var k :| New(a, b, k) && IsIntentOf(b.events[i], i, b.posts[k], follows);
    var l :| New(b, c, l) && IsIntentOf(c.events[j], j, c.posts[l], follows);
  }

  lemma SaveGrows(st: State, post: Post, ids: map<Uuid, Uuid>, now: Time, follows: set<(Uuid, Uuid)>)
    requires post.url.text !in st.posts && Assigns(ids, Followers(follows, post.feed))
    requires forall id :: id in ids ==> id !in st.events
    ensures Grown(st, Saved(st, post, ids, now), follows)
  {
    SaveBelongs(st, post, ids, now, follows);
    SaveCovers(st, post, ids, now, follows);
    SaveUnique(st, post, ids, now, follows);
    hide Assigns, RowsBelong, RowsCover, RowsUnique, NewIntent;
  }

  lemma SaveBelongs(st: State, post: Post, ids: map<Uuid, Uuid>, now: Time, follows: set<(Uuid, Uuid)>)
    requires post.url.text !in st.posts && Assigns(ids, Followers(follows, post.feed))
    requires forall id :: id in ids ==> id !in st.events
    ensures RowsBelong(st, Saved(st, post, ids, now), follows)
  {
    hide Followers;
    var after := Saved(st, post, ids, now);
    assert New(st, after, post.url.text);
    forall id | id in after.events && id !in st.events
      ensures exists k :: New(st, after, k) && IsIntentOf(after.events[id], id, after.posts[k], follows)
    {
      assert id in ids && ids[id] in Followers(follows, post.feed);
      assert IsIntentOf(after.events[id], id, after.posts[post.url.text], follows);
    }
  }

  lemma SaveCovers(st: State, post: Post, ids: map<Uuid, Uuid>, now: Time, follows: set<(Uuid, Uuid)>)
    requires post.url.text !in st.posts && Assigns(ids, Followers(follows, post.feed))
    requires forall id :: id in ids ==> id !in st.events
    ensures RowsCover(st, Saved(st, post, ids, now), follows)
  {
    hide Followers;
    var after := Saved(st, post, ids, now);
    forall k, u | New(st, after, k) && u in Followers(follows, after.posts[k].feed)
      ensures Has(after.events, st.events, IntentOf(after.posts[k].id, u))
    {
      assert k == post.url.text;
      var id :| id in ids && ids[id] == u;
      assert after.events[id].origin == IntentOf(post.id, u);
    }
  }

  lemma SaveUnique(st: State, post: Post, ids: map<Uuid, Uuid>, now: Time, follows: set<(Uuid, Uuid)>)
    requires post.url.text !in st.posts && Assigns(ids, Followers(follows, post.feed))
    requires forall id :: id in ids ==> id !in st.events
    ensures RowsUnique(st, Saved(st, post, ids, now))
  {
    hide Followers;
    var after := Saved(st, post, ids, now);
    assert forall id :: id in after.events && id !in st.events ==> id in ids && after.events[id].origin == IntentOf(post.id, ids[id]);
  }

  lemma SavedContents(st: State, post: Post, ids: map<Uuid, Uuid>, now: Time)
    ensures var after := Saved(st, post, ids, now);
            && ContentsOf(after.posts) == Stored(ContentsOf(st.posts), [Without(post)])
            && |after.posts| == |st.posts| + if post.url.text in st.posts then 0 else 1
  {
    hide Intents, NewIntent;
    var c := Without(post);
    assert [c][..0] == [] && [c][0] == c;
    assert Stored(ContentsOf(st.posts), []) == ContentsOf(st.posts);
    if post.url.text !in st.posts {
      assert ContentsOf(st.posts[post.url.text := post]) == ContentsOf(st.posts)[post.url.text := c];
    }
  }

  /** An interrupted scrape, whatever it got to, followed by a full one, has the effect of
      one full scrape: no post twice, no intent twice, none missing. */
  lemma ScrapeResumes(a: State, b: State, c: State, follows: set<(Uuid, Uuid)>, reader: Reader, feed: Uuid, items: seq<Item>, n: nat)
    requires n <= |items| && PostIdsUnique(c.posts)
    requires Scraped(a, b, follows, Wanted(reader, feed, items[..n])) && Scraped(b, c, follows, Wanted(reader, feed, items))
    ensures Scraped(a, c, follows, Wanted(reader, feed, items))
  {
    hide Wanted, Stored, Grown;
    var part, all := Wanted(reader, feed, items[..n]), Wanted(reader, feed, items);
    WantedPrefix(reader, feed, items, n);
    assert all[..|part|] == part;
    StoredResumes(ContentsOf(a.posts), all, |part|);
    GrownTrans(a, b, c, follows);
  }

  /** Scraping the same items once more changes nothing at all. */
  lemma ScrapeIdempotent(a: State, b: State, c: State, follows: set<(Uuid, Uuid)>, wanted: seq<Content>)
    requires Scraped(a, b, follows, wanted) && Scraped(b, c, follows, wanted)
    ensures c == b
  {
    StoredExactly(ContentsOf(a.posts), wanted);
    StoredAgain(ContentsOf(b.posts), wanted);
    assert c.posts.Keys == b.posts.Keys by {
      assert ContentsOf(c.posts).Keys == c.posts.Keys && ContentsOf(b.posts).Keys == b.posts.Keys;
    }
    assert forall k :: !New(b, c, k);
    assert c.events.Keys == b.events.Keys;
  }

  /** A scrape adds a post for exactly the valid links that had none, and as many as that. */
  lemma ScrapedExactly(a: State, b: State, follows: set<(Uuid, Uuid)>, wanted: seq<Content>)
    requires Scraped(a, b, follows, wanted)
    ensures b.posts.Keys == a.posts.Keys + Links(wanted)
    ensures |b.posts| - |a.posts| == |Links(wanted) - a.posts.Keys|
  {
    hide Grown, Stored, Links;
    StoredExactly(ContentsOf(a.posts), wanted);
    assert ContentsOf(b.posts).Keys == b.posts.Keys && ContentsOf(a.posts).Keys == a.posts.Keys;
    assert b.posts.Keys == a.posts.Keys + (Links(wanted) - a.posts.Keys);
  }

  lemma IntendReaches(cfg: Config, s: Sys, id: Uuid, user: Uuid, post: Post)
    requires Fresh(s, id) && IntentOf(post.id, user) !in Origins(s.events)
    ensures Reaches(cfg, s, s.(events := s.events[id := NewIntent(id, user, post, s.now)], used := s.used + {id}))
  {
    hide Reaches, NewIntent;
    ReachesStep(cfg, s, Intend(id, user, post));
  }

  lemma IntentsSplit(events: Outbox, used: set<Uuid>, ids: map<Uuid, Uuid>, id: Uuid, post: Post, now: Time)
    requires id in ids
    ensures events + Intents(ids, post, now) ==
            events[id := NewIntent(id, ids[id], post, now)] + Intents(ids - {id}, post, now)
    ensures used + ids.Keys == used + {id} + (ids - {id}).Keys
  {
    hide NewIntent;
  }

  /** The intents of one saved post, as steps of the machine: the post is new, and every
      intent is for another follower, so the unique index on intents rejects none. */
  lemma {:induction false} SaveReaches(cfg: Config, s: Sys, post: Post, ids: map<Uuid, Uuid>)
    requires forall id :: id in ids ==> Fresh(s, id) && IntentOf(post.id, ids[id]) !in Origins(s.events)
    requires forall i, j :: i in ids && j in ids && ids[i] == ids[j] ==> i == j
    ensures Reaches(cfg, s, s.(events := s.events + Intents(ids, post, s.now), used := s.used + ids.Keys))
    decreases |ids|
  {
    hide Reaches, NewIntent, Intents, Origins;
    if ids == map[] {
      ReachesSelf(cfg, s);
      NoIntents(s.events, post, s.now);
      assert s.used + ids.Keys == s.used;
    } else {
      var id :| id in ids;
      var rest := ids - {id};
      assert rest.Keys == ids.Keys - {id};
      IntendReaches(cfg, s, id, ids[id], post);
      OneMoreOrigin(s.events, id, ids[id], post, s.now);
      IntentsSplit(s.events, s.used, ids, id, post, s.now);
      var next := s.(events := s.events[id := NewIntent(id, ids[id], post, s.now)], used := s.used + {id});
      SaveReaches(cfg, next, post, rest);
      ReachesTrans(cfg, s, next, next.(events := next.events + Intents(rest, post, s.now), used := next.used + rest.Keys));
    }
  }

  lemma OneMoreOrigin(events: Outbox, id: Uuid, user: Uuid, post: Post, now: Time)
    ensures Origins(events[id := NewIntent(id, user, post, now)]) <= Origins(events) + {IntentOf(post.id, user)}
  {
  }

  lemma NoIntents(events: Outbox, post: Post, now: Time)
    ensures var none: map<Uuid, Uuid> := map[];
            events + Intents(none, post, now) == events
  {
  }

  /** The title of a scraped post is never blank, so the consumer accepts its intents exactly
      when the link is an absolute http(s) one and the date is not the zero time. */
  lemma ScrapedIntentRoutes(reader: Reader, feed: Uuid, item: Item, postId: Uuid, id: Uuid, user: Uuid, now: Time)
    requires id != NIL && user != NIL && postId != NIL && feed != NIL && now != ZERO_TIME
    requires ContentOf(reader, feed, item).Some?
    ensures var c := ContentOf(reader, feed, item).value;
            var row := NewIntent(id, user, Post(postId, feed, c.title, c.description, c.publishedAt, c.url), now);
            var v := Contract.RouteRecord(RequestsTopic, Relay.RecordOf(id, row));
            var link := reader.parse(Contract.TrimSpace(item.link));
            if link.Parsed? && (link.scheme == "http" || link.scheme == "https") && link.host != "" && c.publishedAt != ZERO_TIME
            then v.Accept? && v.event.data == RequestedData(
                   postId, feed, Contract.TrimSpace(item.title), Contract.TrimSpace(item.description), c.url, c.publishedAt)
            else v == Contract.Reject("invalid_request")
  {
    hide Contract.RouteRecord, Relay.RecordOf, NewIntent;
    var c := ContentOf(reader, feed, item).value;
    assert Contract.TrimSpace(c.title) != "" by { assert !Contract.IsSpace(c.title[0]); }
    Requests.IntentRoundTrip(id, user, Post(postId, feed, c.title, c.description, c.publishedAt, c.url), now);
  }

  /** Item i is the first valid one with link k, and it has this content. */
  predicate FirstFor(reader: Reader, feed: Uuid, items: seq<Item>, i: nat, k: string, c: Content) {
    && i < |items| && ContentOf(reader, feed, items[i]) == Some(c) && c.url.text == k
    && forall j :: 0 <= j < i && ContentOf(reader, feed, items[j]).Some? ==> ContentOf(reader, feed, items[j]).value.url.text != k
  }

  /** In terms of the items: what was there stays, every valid link is stored, and what is
      new is the content of the first valid item with its link. */
  ghost predicate ItemsTaken(before: Contents, after: Contents, reader: Reader, feed: Uuid, items: seq<Item>) {
    && (forall k :: k in before ==> k in after && after[k] == before[k])
    && (forall i :: 0 <= i < |items| && ContentOf(reader, feed, items[i]).Some? ==>
          ContentOf(reader, feed, items[i]).value.url.text in after)
    && (forall k :: k in after && k !in before ==> exists i :: FirstFor(reader, feed, items, i, k, after[k]))
  }

  lemma {:induction false} StoredItems(c: Contents, reader: Reader, feed: Uuid, items: seq<Item>)
    ensures ItemsTaken(c, Stored(c, Wanted(reader, feed, items)), reader, feed, items)
    decreases |items|
  {
    hide ContentOf, ItemsTaken, Stored, Wanted;
    if items == [] {
      NothingTaken(c, reader, feed);
    } else {
      StoredItems(c, reader, feed, items[..|items| - 1]);
      OneMoreStored(c, reader, feed, items);
      OneMoreTaken(c, Stored(c, Wanted(reader, feed, items[..|items| - 1])), reader, feed, items);
    }
  }

  lemma NothingTaken(c: Contents, reader: Reader, feed: Uuid)
    ensures ItemsTaken(c, Stored(c, Wanted(reader, feed, [])), reader, feed, [])
  {
  }

  /** The contents after one more item. */
  function Take(c: Contents, reader: Reader, feed: Uuid, item: Item): Contents {
    match ContentOf(reader, feed, item)
    case None => c
    case Some(x) => if x.url.text in c then c else c[x.url.text := x]
  }

  lemma OneMoreTaken(c: Contents, between: Contents, reader: Reader, feed: Uuid, items: seq<Item>)
    requires items != [] && ItemsTaken(c, between, reader, feed, items[..|items| - 1])
    ensures ItemsTaken(c, Take(between, reader, feed, items[|items| - 1]), reader, feed, items)
  {
    hide ContentOf;
    var n := |items| - 1;
    var after := Take(between, reader, feed, items[n]);
    forall k | k in after && k !in c ensures exists i :: FirstFor(reader, feed, items, i, k, after[k]) {
      if k in between {
        var i :| FirstFor(reader, feed, items[..n], i, k, between[k]);
        assert FirstFor(reader, feed, items, i, k, after[k]);
      } else {
        assert FirstFor(reader, feed, items, n, k, after[k]);
      }
    }
  }

  lemma OneMoreStored(c: Contents, reader: Reader, feed: Uuid, items: seq<Item>)
    requires items != []
    ensures var n := |items| - 1;
            Stored(c, Wanted(reader, feed, items)) == Take(Stored(c, Wanted(reader, feed, items[..n])), reader, feed, items[n])
  {
    hide ContentOf;
    var n := |items| - 1;
    assert items[..n + 1] == items;
    var front := Wanted(reader, feed, items[..n]);
    WantedOneMore(reader, feed, items, n);
    if ContentOf(reader, feed, items[n]).Some? {
      var x := ContentOf(reader, feed, items[n]).value;
      assert (front + [x])[..|front|] == front && (front + [x])[|front|] == x;
    }
  }

  /** What a finished or interrupted scrape stored, in terms of the items. */
  lemma ScrapedItems(a: State, b: State, follows: set<(Uuid, Uuid)>, reader: Reader, feed: Uuid, items: seq<Item>)
    requires Scraped(a, b, follows, Wanted(reader, feed, items))
    ensures ItemsTaken(ContentsOf(a.posts), ContentsOf(b.posts), reader, feed, items)
  {
    hide ContentOf, Wanted, Stored, Grown, ItemsTaken, ContentsOf;
    StoredItems(ContentsOf(a.posts), reader, feed, items);
  }

  /** The intent of a post for a user, written out. */
  function IntentFor(id: Uuid, user: Uuid, post: Post, now: Time): OutboxRow {
    OutboxRow(
      IntentOf(post.id, user), Some(RequestsTopic), UuidText(user),
      RequestedJson(Requested(
        id, "notification.requested", 1, now, "feedflow-monolith", id, user, "new_post",
        RequestedData(post.id, post.feed, post.title, if post.description.Some? then post.description.value else "",
                      post.url, post.publishedAt))),
      "notification.requested", 1, 0, now, now, None)
  }

  predicate Follows(follows: set<(Uuid, Uuid)>, user: Uuid, feed: Uuid) {
    (user, feed) in follows
  }

  ghost predicate OnlyToFollowers(before: Outbox, after: Outbox, follows: set<(Uuid, Uuid)>, post: Post, now: Time) {
    forall r :: r in after && r !in before ==> exists u :: Follows(follows, u, post.feed) && after[r] == IntentFor(r, u, post, now)
  }

  ghost predicate ToEveryFollower(before: Outbox, after: Outbox, follows: set<(Uuid, Uuid)>, post: Post, now: Time) {
    forall u :: Follows(follows, u, post.feed) ==> exists r :: IsOnlyIntent(before, after, r, u, post, now)
  }

  /** One intent was added for every follower of the post's feed, and nothing else changed. */
  ghost predicate AnnouncedTo(before: Outbox, after: Outbox, follows: set<(Uuid, Uuid)>, post: Post, now: Time) {
    && (forall r :: r in before ==> r in after && after[r] == before[r])
    && OnlyToFollowers(before, after, follows, post, now) && ToEveryFollower(before, after, follows, post, now)
  }

  predicate IsOnlyIntent(before: Outbox, after: Outbox, r: Uuid, u: Uuid, post: Post, now: Time) {
    && r in after && r !in before && after[r] == IntentFor(r, u, post, now)
    && forall q :: q in after && q !in before && after[q].origin == IntentOf(post.id, u) ==> q == r
  }

  lemma SaveAnnounces(events: Outbox, post: Post, ids: map<Uuid, Uuid>, now: Time, follows: set<(Uuid, Uuid)>)
    requires Assigns(ids, Followers(follows, post.feed)) && forall id :: id in ids ==> id !in events
    ensures AnnouncedTo(events, events + Intents(ids, post, now), follows, post, now)
  {
    AnnouncesOnly(events, post, ids, now, follows);
    AnnouncesAll(events, post, ids, now, follows);
    IntentsAre(ids, post, now);
    hide Intents, Followers, Assigns, OnlyToFollowers, ToEveryFollower;
  }

  lemma AnnouncesOnly(events: Outbox, post: Post, ids: map<Uuid, Uuid>, now: Time, follows: set<(Uuid, Uuid)>)
    requires Assigns(ids, Followers(follows, post.feed)) && forall id :: id in ids ==> id !in events
    ensures OnlyToFollowers(events, events + Intents(ids, post, now), follows, post, now)
  {
    var after := events + Intents(ids, post, now);
    IntentsAre(ids, post, now);
    FollowersAre(follows, post.feed);
    hide Intents, Followers, IntentFor, Follows;
    forall r | r in after && r !in events
      ensures exists u :: Follows(follows, u, post.feed) && after[r] == IntentFor(r, u, post, now)
    {
      assert Follows(follows, ids[r], post.feed) && after[r] == IntentFor(r, ids[r], post, now);
    }
  }

  lemma AnnouncesAll(events: Outbox, post: Post, ids: map<Uuid, Uuid>, now: Time, follows: set<(Uuid, Uuid)>)
    requires Assigns(ids, Followers(follows, post.feed)) && forall id :: id in ids ==> id !in events
    ensures ToEveryFollower(events, events + Intents(ids, post, now), follows, post, now)
  {
    FollowersAre(follows, post.feed);
    hide Intents, Followers, IntentFor, IsOnlyIntent, Follows;
    forall u | Follows(follows, u, post.feed)
      ensures exists r :: IsOnlyIntent(events, events + Intents(ids, post, now), r, u, post, now)
    {
      var r :| r in ids && ids[r] == u;
      OnlyIntent(events, post, ids, now, r);
    }
  }

  lemma OnlyIntent(events: Outbox, post: Post, ids: map<Uuid, Uuid>, now: Time, r: Uuid)
    requires r in ids && (forall i, j :: i in ids && j in ids && ids[i] == ids[j] ==> i == j) && forall id :: id in ids ==> id !in events
    ensures IsOnlyIntent(events, events + Intents(ids, post, now), r, ids[r], post, now)
  {
    IntentsAre(ids, post, now);
    hide Intents, IntentFor;
  }

  lemma IntentsAre(ids: map<Uuid, Uuid>, post: Post, now: Time)
    ensures Intents(ids, post, now).Keys == ids.Keys
    ensures forall r :: r in ids ==> Intents(ids, post, now)[r] == IntentFor(r, ids[r], post, now)
                                     && Intents(ids, post, now)[r].origin == IntentOf(post.id, ids[r])
  {
  }

  lemma FollowersAre(follows: set<(Uuid, Uuid)>, feed: Uuid)
    ensures forall u :: u in Followers(follows, feed) <==> Follows(follows, u, feed)
  {
    forall u ensures u in Followers(follows, feed) <==> Follows(follows, u, feed) {
      if (u, feed) in follows {
        assert (u, feed).0 in Followers(follows, feed);
      }
    }
  }

  // ----- The scraper -----

  /** Where a scrape is interrupted: the context is cancelled before item `at`, saving item
      `at` fails (with or without effect), or marking the feed fails (likewise). */
  datatype Fault = NoFault | Cancelled(at: nat) | SaveFails(at: nat, applied: bool) | MarkFails(applied: bool)

  /** Whether the fault is met at all: an item that is skipped is not saved. */
  predicate Interrupts(fault: Fault, reader: Reader, feed: Uuid, items: seq<Item>) {
    match fault
    case NoFault => false
    case Cancelled(at) => at < |items|
    case SaveFails(at, _) => at < |items| && ContentOf(reader, feed, items[at]).Some?
    case MarkFails(_) => true
  }

  /** The fault is not met before item i. */
  predicate NotMet(fault: Fault, reader: Reader, feed: Uuid, items: seq<Item>, i: nat) {
    match fault
    case Cancelled(at) => i <= at
    case SaveFails(at, _) => i <= at || at >= |items| || ContentOf(reader, feed, items[at]).None?
    case _ => true
  }

  class Scraper {
    const feeds: Scheduler.Feeds
    const events: Relay.Table
    const ids: Generator
    const reader: Reader
    var posts: map<string, Post>
    var follows: set<(Uuid, Uuid)>

    constructor (feeds: Scheduler.Feeds, events: Relay.Table, ids: Generator, reader: Reader)
      ensures this.feeds == feeds && this.events == events && this.ids == ids && this.reader == reader
      ensures posts == map[] && follows == {}
    {
      this.feeds, this.events, this.ids, this.reader := feeds, events, ids, reader;
      posts, follows := map[], {};
    }

    function Tables(): State
      reads this, events
    {
      State(posts, events.rows)
    }

    /** Posts are stored under their link, and no identifier was used twice. */
    ghost predicate Valid()
      reads this, events, ids
    {
      && (forall k :: k in posts ==> posts[k].url.text == k && posts[k].id < ids.next)
      && PostIdsUnique(posts)
      && (forall id :: id in events.rows ==> id < ids.next)
    }

    method SavePost(post: Post, now: Time) returns (inserted: bool, ghost news: map<Uuid, Uuid>)
      requires Valid() && post.id < ids.next && forall k :: k in posts ==> posts[k].id != post.id
      modifies this`posts, events, ids
      ensures Valid() && old(ids.next) <= ids.next
      ensures Tables() == Saved(old(Tables()), post, news, now)
      ensures inserted <==> post.url.text !in old(posts)
      ensures Grown(old(Tables()), Tables(), follows)
      ensures posts == if inserted then old(posts)[post.url.text := post] else old(posts)
      ensures !inserted ==> events.rows == old(events.rows)
      ensures inserted ==> AnnouncedTo(old(events.rows), events.rows, follows, post, now)
    {
      hide Grown, Assigns, Followers, NewIntent, AnnouncedTo;
      news := map[];
      if post.url.text in posts {
        GrownSelf(Tables(), follows);
        return false, news;
      }
      var intents := ids.ForEach(Followers(follows, post.feed));
      SaveGrows(Tables(), post, intents, now, follows);
      SaveAnnounces(events.rows, post, intents, now, follows);
      posts := posts[post.url.text := post];
      events.rows := events.rows + Intents(intents, post, now);
      return true, intents;
    }

    /** Tries the layouts in turn. */
    method ParsePublishedAt(value: string) returns (date: Option<Time>)
      ensures date == PublishedAt(reader.layouts, value)
      ensures var text := Contract.TrimSpace(value);
              date.None? <==> text == "" || forall i :: 0 <= i < |reader.layouts| ==> reader.layouts[i](text) == None
      ensures date.Some? ==>
                var text := Contract.TrimSpace(value);
                exists i :: 0 <= i < |reader.layouts| && reader.layouts[i](text) == date
                            && forall j :: 0 <= j < i ==> reader.layouts[j](text) == None
    {
      var trimmed := Contract.TrimSpace(value);
      if trimmed == "" {
        return None;
      }
      for i := 0 to |reader.layouts|
        invariant FirstParsed(reader.layouts, trimmed) == FirstParsed(reader.layouts[i..], trimmed)
        invariant forall j :: 0 <= j < i ==> reader.layouts[j](trimmed) == None
      {
        var parsed := reader.layouts[i](trimmed);
        if parsed.Some? {
          return parsed;
        }
      }
      return None;
    }

    /** `items` is None when the feed could not be downloaded or parsed; `reached` says how
        many items took effect. The feed is marked only after all of them did. */
    method ScrapeFeed(feed: Uuid, items: Option<seq<Item>>, fault: Fault, now: Time)
      returns (inserted: nat, ok: bool, ghost reached: nat)
      requires Valid()
      modifies this`posts, events, ids, feeds
      ensures Valid()
      ensures items.None? ==> !ok && inserted == 0 && Tables() == old(Tables()) && feeds.rows == old(feeds.rows)
      ensures items.Some? ==>
                && reached <= |items.value|
                && Scraped(old(Tables()), Tables(), follows, Wanted(reader, feed, items.value[..reached]))
                && inserted <= |posts| - |old(posts)| <= inserted + (if ok then 0 else 1)
                && (ok <==> !Interrupts(fault, reader, feed, items.value))
                && (ok ==> reached == |items.value|)
                && ItemsTaken(ContentsOf(old(posts)), ContentsOf(posts), reader, feed, items.value[..reached])
                && feeds.rows == (if reached == |items.value| && (ok || fault == MarkFails(true))
                     then Scheduler.Marked(old(feeds.rows), map[feed := now]) else old(feeds.rows))
    {
      hide Scraped, Wanted, ContentOf, Grown, Stored, ContentsOf, ItemsTaken, Contract.TrimSpace, PostIdsUnique;
      hide Scraper.Valid;
      inserted, ok, reached := 0, false, 0;
      if items.None? {
        return;
      }
      ghost var before := Tables();
      Unscraped(before, follows, reader, feed, items.value);
      for i := 0 to |items.value|
        invariant Valid() && reached == i && feeds.rows == old(feeds.rows)
        invariant Scraped(before, Tables(), follows, Wanted(reader, feed, items.value[..i]))
        invariant |posts| == |before.posts| + inserted
        invariant NotMet(fault, reader, feed, items.value, i)
      {
        ScrapedItems(before, Tables(), follows, reader, feed, items.value[..i]);
        if fault == Fault.Cancelled(i) {
          return;
        }
        ghost var was := Tables();
        var content := ReadItem(feed, items.value[i]);
        reached := i + 1;
        OneMoreItem(reader, feed, items.value, i, before, was, follows);
        if content.Some? {
          if fault == SaveFails(i, false) {
            reached := i;
            return;
          }
          var added := SaveItem(content.value, now);
          ScrapedOneMore(before, was, Tables(), follows, reader, feed, items.value, i);
          if fault == SaveFails(i, true) {
            ScrapedItems(before, Tables(), follows, reader, feed, items.value[..i + 1]);
            return;
          }
          if added {
            inserted := inserted + 1;
          }
        }
      }
      assert items.value[..|items.value|] == items.value;
      ScrapedItems(before, Tables(), follows, reader, feed, items.value);
      if fault == MarkFails(false) {
        return;
      }
      feeds.MarkFeedFetched(feed, now);
      ok := !fault.MarkFails?;
    }

    /** The checks of the item loop. */
    method ReadItem(feed: Uuid, item: Item) returns (content: Option<Content>)
      ensures content == ContentOf(reader, feed, item)
      ensures var title, link := Contract.TrimSpace(item.title), Contract.TrimSpace(item.link);
              var text := Contract.TrimSpace(item.description);
              var date := PublishedAt(reader.layouts, item.pubDate);
              content == if title != "" && link != "" && date.Some?
                then Some(Content(feed, title, if text != "" then Some(text) else None, date.value, Url(link, reader.parse(link))))
                else None
    {
      var title, link := Contract.TrimSpace(item.title), Contract.TrimSpace(item.link);
      if title == "" || link == "" {
        return None;
      }
      var date := ParsePublishedAt(item.pubDate);
      if date.None? {
        return None;
      }
      var text := Contract.TrimSpace(item.description);
      return Some(Content(feed, title, if text == "" then None else Some(text), date.value, Url(link, reader.parse(link))));
    }

    /** Saves the content under a fresh identifier. */
    method SaveItem(c: Content, now: Time) returns (inserted: bool)
      requires Valid()
      modifies this`posts, events, ids
      ensures Valid() && PostIdsUnique(posts) && Grown(old(Tables()), Tables(), follows)
      ensures ContentsOf(posts) == Stored(ContentsOf(old(posts)), [c])
      ensures |posts| == |old(posts)| + if inserted then 1 else 0
    {
      hide Grown, Saved, Stored, ContentsOf;
      ghost var before := Tables();
      var id := ids.One();
      var post := Post(id, c.feed, c.title, c.description, c.publishedAt, c.url);
      ghost var news;
      inserted, news := SavePost(post, now);
      SavedContents(before, post, news, now);
    }
  }

  lemma Unscraped(a: State, follows: set<(Uuid, Uuid)>, reader: Reader, feed: Uuid, items: seq<Item>)
    ensures Scraped(a, a, follows, Wanted(reader, feed, items[..0]))
  {
    GrownSelf(a, follows);
  }

  /** A skipped item leaves a scrape where it was. */
  lemma OneMoreItem(reader: Reader, feed: Uuid, items: seq<Item>, i: nat, a: State, b: State, follows: set<(Uuid, Uuid)>)
    requires i < |items| && Scraped(a, b, follows, Wanted(reader, feed, items[..i]))
    ensures ContentOf(reader, feed, items[i]).None? ==> Scraped(a, b, follows, Wanted(reader, feed, items[..i + 1]))
  {
    hide Scraped, Wanted, ContentOf;
    WantedOneMore(reader, feed, items, i);
  }

  lemma ScrapedOneMore(a: State, b: State, c: State, follows: set<(Uuid, Uuid)>, reader: Reader, feed: Uuid, items: seq<Item>, i: nat)
    requires i < |items| && ContentOf(reader, feed, items[i]).Some?
    requires Scraped(a, b, follows, Wanted(reader, feed, items[..i])) && Grown(b, c, follows) && PostIdsUnique(c.posts)
    requires ContentsOf(c.posts) == Stored(ContentsOf(b.posts), [ContentOf(reader, feed, items[i]).value])
    ensures Scraped(a, c, follows, Wanted(reader, feed, items[..i + 1]))
  {
    hide Grown, Wanted, ContentOf, Stored;
    WantedOneMore(reader, feed, items, i);
    GrownTrans(a, b, c, follows);
    StoredTwice(ContentsOf(a.posts), Wanted(reader, feed, items[..i]), [ContentOf(reader, feed, items[i]).value]);
  }
}
