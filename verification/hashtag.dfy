/**
 `get_hashtag_users`: pages through the hashtag search endpoint, keeping one
 record per post author (the first one seen) until `max_posts` authors are
 collected, a page is missing or empty, or no next cursor comes back.
 */
module Hashtag {
  import opened PyJson
  import opened Network
  import Normalizer

  /** The cap used when the caller passes `max_posts=None`. */
  const DefaultMaxPosts: int := 50

  /** The fixed columns of one discovered post; a missing field is `None`. */
  datatype MediaRecord = MediaRecord(
    username: Json, fullName: Json,
    pk: Json, likeCount: Json, commentCount: Json,
    locationName: Json, locationAddress: Json, locationCity: Json, locationShortName: Json,
    contentType: Json, text: Json, textTranslation: Json)

  /** One binding of the `users` dict: the hashed author name and its record. */
  datatype Entry = Entry(key: Key, record: MediaRecord)

  /** The four objects a media item is read through. */
  datatype Parts = Parts(media: Json, caption: Json, user: Json, location: Json)

  /** `media = item.get("media", item)`, then the caption, its user and the
      location, each defaulting to `{}` when falsy. */
  function Unpack(item: Json): (r: Py<Parts>)
    ensures r.Ok? ==> r.value.media.JObj? && r.value.caption.JObj?
    ensures !item.JObj? ==> r.Raised?
    ensures r.Ok? && !HasKey(item.fields, "media") ==> r.value.media == item
    ensures r.Ok? && HasKey(item.fields, "media") ==> r.value.media == Lookup(item.fields, "media").value
  {
    var media :- GetOr(item, "media", item);
    var caption :- Get(media, "caption");
    var c := Or(caption, EmptyObj);
    var user :- Get(c, "user");
    var location :- Get(media, "location");
    Ok(Parts(media, c, Or(user, EmptyObj), Or(location, EmptyObj)))
  }

  /** An item that wraps its post under `media` is read exactly as the bare
      post would be. */
  lemma UnpackWrapped(m: Json, extra: seq<(string, Json)>)
    requires m.JObj? && !HasKey(m.fields, "media")
    ensures Unpack(JObj([("media", m)] + extra)) == Unpack(m)
  {
    LookupFirst("media", m, extra);
  }

  /** The record stored for a new author. Only a location that is truthy but
      not a dict can make it raise. */
  function BuildRecord(p: Parts): (r: Py<MediaRecord>)
    requires p.media.JObj? && p.caption.JObj?
    ensures r.Ok? <==> p.user.JObj? && p.location.JObj?
    ensures r.Ok? ==> Get(p.user, "username") == Ok(r.value.username)
    ensures r.Ok? ==> Get(p.media, "pk") == Ok(r.value.pk)
  {
    var username :- Get(p.user, "username");
    var fullName :- Get(p.user, "full_name");
    var pk :- Get(p.media, "pk");
    var likes :- Get(p.media, "like_count");
    var comments :- Get(p.media, "comment_count");
    var name :- Get(p.location, "name");
    var address :- Get(p.location, "address");
    var city :- Get(p.location, "city");
    var shortName :- Get(p.location, "short_name");
    var contentType :- Get(p.caption, "content_type");
    var text :- Get(p.caption, "text");
    var translation :- Get(p.caption, "text_translation");
    Ok(MediaRecord(username, fullName, pk, likes, comments,
                   name, address, city, shortName, contentType, text, translation))
  }

  /** The keys already bound in `users`. */
  function KeysOf(es: seq<Entry>): set<Key> {
    set e | e in es :: e.key
  }

  predicate DistinctKeys(es: seq<Entry>) {
    forall i, j :: 0 <= i < j < |es| ==> es[i].key != es[j].key
  }

  /** Every entry is bound under the hash of its record's (non-empty) author. */
  predicate KeyedByAuthor(es: seq<Entry>) {
    forall i :: 0 <= i < |es| ==>
      Truthy(es[i].record.username) && HashKey(es[i].record.username) == Ok(es[i].key)
  }

  /** What one media item adds to `users` whose keys are `seen`: nothing
      when the author is missing, empty or already seen. */
  function Candidate(item: Json, seen: set<Key>): (r: Py<Option<Entry>>)
    ensures r.Ok? && r.value.Some? ==>
              r.value.value.key !in seen && KeyedByAuthor([r.value.value])
  {
    var p :- Unpack(item);
    var name :- Get(p.user, "username");
    if !Truthy(name) then Ok(None)
    else
      var k :- HashKey(name);
      if k in seen then Ok(None)
      else
        var rec :- BuildRecord(p);
        Ok(Some(Entry(k, rec)))
  }

  /** The inner `for media_item in medias` loop: add new authors until the
      cap is reached. The flag reports an exception, with `users` as it was
      when the exception was raised. */
  function AddUsers(items: seq<Json>, users: seq<Entry>, cap: int): (r: (seq<Entry>, bool))
    ensures users <= r.0
    ensures |r.0| <= Max(|users|, cap)
    ensures DistinctKeys(users) ==> DistinctKeys(r.0)
    ensures KeyedByAuthor(users) ==> KeyedByAuthor(r.0)
  {
    if |items| == 0 || |users| >= cap then (users, false)
    else
      match Candidate(items[0], KeysOf(users))
      case Raised => (users, true)
      case Ok(None) => AddUsers(items[1..], users, cap)
      case Ok(Some(e)) =>
        AppendEntry(users, e);
        AddUsers(items[1..], users + [e], cap)
  }

  lemma AppendEntry(users: seq<Entry>, e: Entry)
    requires e.key !in KeysOf(users) && KeyedByAuthor([e])
    ensures DistinctKeys(users) ==> DistinctKeys(users + [e])
    ensures KeyedByAuthor(users) ==> KeyedByAuthor(users + [e])
  {
    var r := users + [e];
    assert r[|users|] == [e][0];
    forall i | 0 <= i < |users| ensures r[i] == users[i] && r[i].key != e.key {
      assert users[i] in users;
    }
  }

  /** The debug print of `data.keys()`, then the extraction and the
      `all_raw_medias.extend(medias)`: the extracted value and its items. */
  function PageMedias(data: Json): (r: Py<(Json, seq<Json>)>)
    ensures r.Ok? <==> data.JObj? && Normalizer.Extract(data).Ok? && Iter(Normalizer.Extract(data).value).Ok?
    ensures r.Ok? ==> Normalizer.Extract(data) == Ok(r.value.0) && Iter(r.value.0) == Ok(r.value.1)
    ensures r.Ok? ==> (Truthy(r.value.0) <==> |r.value.1| > 0)
  {
    if !data.JObj? then Raised
    else
      var medias :- Normalizer.Extract(data);
      var items :- Iter(medias);
      Ok((medias, items))
  }

  /** `media_grid.next_max_id`, falling back to the top-level `next_max_id`. */
  function NextCursor(data: Json): (r: Py<Json>)
    requires data.JObj?
    ensures r.Ok? <==> !HasKey(data.fields, "media_grid") || Lookup(data.fields, "media_grid").value.JObj?
    ensures !HasKey(data.fields, "media_grid") ==> r == Get(data, "next_max_id")
    ensures HasKey(data.fields, "media_grid") ==>
              var grid := Lookup(data.fields, "media_grid").value;
              grid.JObj? && HasKey(grid.fields, "next_max_id") && Truthy(Lookup(grid.fields, "next_max_id").value) ==>
                r == Ok(Lookup(grid.fields, "next_max_id").value)
    ensures r.Ok? && !Truthy(r.value) ==> r == Get(data, "next_max_id")
  {
    var grid :- GetOr(data, "media_grid", EmptyObj);
    var inGrid :- Get(grid, "next_max_id");
    var top :- Get(data, "next_max_id");
    Ok(Or(inGrid, top))
  }

  /** One round of the page loop: the raw items the page contributed, the
      `users` dict after it, whether an exception escaped, the cursor to
      continue with (`None` to stop), and the network afterwards. */
  datatype Page = Page(items: seq<Json>, users: seq<Entry>, raised: bool, next: Option<Json>, net: Net)

  /** The body of the `while` loop, for one cursor. */
  function FetchPage(query: string, cap: int, cursor: Option<Json>, users: seq<Entry>, net: Net): (p: Page)
    ensures Advances(net, p.net)
    ensures forall i :: |net.sent| <= i < |p.net.sent| ==> p.net.sent[i].endpoint == TopSerp(query)
    ensures p.next.Some? ==> !p.raised && Truthy(p.next.value) && |p.net.tape| < |net.tape|
    ensures !p.raised ==> AddUsers(p.items, users, cap) == (p.users, false)
    ensures p.raised ==> AddUsers(p.items, users, cap).0 == p.users || p.users == users
  {
    var (data, net1) := ApiRequest(Request(TopSerp(query), cursor), net);
    if data.None? || !Truthy(data.value) then Page([], users, false, None, net1)
    else
      match PageMedias(data.value)
      case Raised => Page([], users, true, None, net1)
      case Ok((medias, items)) =>
        if !Truthy(medias) then Page(items, users, false, None, net1)
        else
          var (users1, raised) := AddUsers(items, users, cap);
          if raised then Page(items, users1, true, None, net1)
          else
            match NextCursor(data.value)
            case Raised => Page(items, users1, true, None, net1)
            case Ok(next) =>
              Page(items, users1, false, if Truthy(next) then Some(next) else None, net1)
  }

  /** What one round reads off the tape. It sends the search request with
      the given cursor (repeated while throttled) and nothing else. With no
      usable response it stops without items. Otherwise its items are the
      response's media list; it adds authors from them only when that list is
      non-empty; and it continues exactly when the list is non-empty, no item
      raised and the response carries a truthy cursor, which it continues
      from. */
  lemma FetchPageReads(query: string, cap: int, cursor: Option<Json>, users: seq<Entry>, net: Net)
    ensures var p := FetchPage(query, cap, cursor, users, net);
            var a := ApiRequest(Request(TopSerp(query), cursor), net);
            && p.net == a.1
            && p.net.sent[|net.sent|] == Request(TopSerp(query), cursor)
            && (a.0.None? || !Truthy(a.0.value) ==> p == Page([], users, false, None, a.1))
            && (a.0.Some? && Truthy(a.0.value) && PageMedias(a.0.value).Raised? ==>
                  p == Page([], users, true, None, a.1))
  {
  }

  /** The same for a response whose media list can be read. */
  lemma FetchPageItems(query: string, cap: int, cursor: Option<Json>, users: seq<Entry>, net: Net)
    requires var a := ApiRequest(Request(TopSerp(query), cursor), net);
             a.0.Some? && Truthy(a.0.value) && PageMedias(a.0.value).Ok?
    ensures var p := FetchPage(query, cap, cursor, users, net);
            var d := ApiRequest(Request(TopSerp(query), cursor), net).0.value;
            var (m, xs) := PageMedias(d).value;
            var added := AddUsers(xs, users, cap);
            && p.items == xs
            && p.users == (if Truthy(m) then added.0 else users)
            && (p.raised <==> Truthy(m) && (added.1 || NextCursor(d).Raised?))
            && (p.next.Some? <==> Truthy(m) && !added.1 && NextCursor(d).Ok? && Truthy(NextCursor(d).value))
            && (p.next.Some? ==> p.next.value == NextCursor(d).value)
  {
  }

  /** The real search response: the page's items are the grid sections'
      media, in order, and the next page's cursor is the grid's
      `next_max_id`. */
  lemma RealGridPage(ss: seq<seq<Json>>, layoutType: Json, cursor: Json, extra: seq<(string, Json)>)
    requires !HasKey(extra, "media_grid")
    ensures var data := JObj([("media_grid", Normalizer.GridJson(ss, layoutType, cursor))] + extra);
            && PageMedias(data) == Ok((JArr(Normalizer.Concat(ss)), Normalizer.Concat(ss)))
            && (Truthy(cursor) ==> NextCursor(data) == Ok(cursor))
  {
    var g := Normalizer.GridJson(ss, layoutType, cursor);
    var data := JObj([("media_grid", g)] + extra);
    LookupFirst("media_grid", g, extra);
    LookupFirst("sections", JArr(Normalizer.SectionsJson(ss, layoutType)), [("next_max_id", cursor)]);
    Normalizer.ExtractEnvelope(Normalizer.Grid(ss), data);
    LookupSkip("sections", JArr(Normalizer.SectionsJson(ss, layoutType)), [("next_max_id", cursor)], "next_max_id");
    LookupFirst("next_max_id", cursor, []);
  }

  /** The loop goes on only after a page that yielded items: a page whose
      `medias` is empty ends the crawl whatever its cursor says. */
  lemma NextPageHasItems(query: string, cap: int, cursor: Option<Json>, users: seq<Entry>, net: Net)
    requires FetchPage(query, cap, cursor, users, net).next.Some?
    ensures |FetchPage(query, cap, cursor, users, net).items| > 0
  {
  }

  /** The state of the crawl: the `users` dict, the raw items collected for
      export from this round on, whether an exception escaped, and the
      network. */
  datatype Crawl = Crawl(users: seq<Entry>, raw: seq<Json>, raised: bool, net: Net)

  /** The `while len(users) < max_posts` page loop. Once the cap is reached
      it stops without another request. */
  function Loop(query: string, cap: int, cursor: Option<Json>,
                users: seq<Entry>, net: Net): (r: Crawl)
    decreases |net.tape|, 1
    ensures Advances(net, r.net)
    ensures users <= r.users
    ensures |r.users| <= Max(|users|, cap)
    ensures DistinctKeys(users) ==> DistinctKeys(r.users)
    ensures KeyedByAuthor(users) ==> KeyedByAuthor(r.users)
    ensures forall i :: |net.sent| <= i < |r.net.sent| ==> r.net.sent[i].endpoint == TopSerp(query)
  {
    if |users| >= cap then Crawl(users, [], false, net)
    else
      var p := FetchPage(query, cap, cursor, users, net);
      var r := AfterPage(query, cap, p, |net.tape|);
      AdvancesTransitive(net, p.net, r.net);
      r
  }

  /** The rest of one loop round once page `p` is in: stop unless it carries
      a cursor, otherwise go round again from its cursor. `bound` is the
      tape length before the page, which the page shortened. */
  function AfterPage(query: string, cap: int, p: Page, bound: nat): (r: Crawl)
    requires p.next.Some? ==> |p.net.tape| < bound
    decreases bound, 0
    ensures Advances(p.net, r.net)
    ensures p.users <= r.users && p.items <= r.raw
    ensures |r.users| <= Max(|p.users|, cap)
    ensures DistinctKeys(p.users) ==> DistinctKeys(r.users)
    ensures KeyedByAuthor(p.users) ==> KeyedByAuthor(r.users)
    ensures forall i :: |p.net.sent| <= i < |r.net.sent| ==> r.net.sent[i].endpoint == TopSerp(query)
  {
    if p.next.None? then Crawl(p.users, p.items, p.raised, p.net)
    else
      var r := Loop(query, cap, p.next, p.users, p.net);
      Crawl(r.users, p.items + r.raw, r.raised, r.net)
  }

  /** The result list of `get_hashtag_users`, the raw items it hands to the
      raw-JSON exporter, and the network afterwards. */
  datatype HashtagResult = HashtagResult(users: seq<MediaRecord>, rawMedias: seq<Json>, net: Net)

  function Values(es: seq<Entry>): (r: seq<MediaRecord>)
    ensures |r| == |es| && forall i :: 0 <= i < |es| ==> r[i] == es[i].record
  {
    if |es| == 0 then [] else [es[0].record] + Values(es[1..])
  }

  function ResolveCap(maxPosts: Option<int>): int {
    match maxPosts
    case Some(n) => n
    case None => DefaultMaxPosts
  }

  /** `get_hashtag_users(hashtag, max_posts)`. An exception anywhere in the
      loop discards everything collected so far. */
  function HashtagUsers(hashtag: string, maxPosts: Option<int>, net: Net): (r: HashtagResult)
    ensures Advances(net, r.net)
    ensures |r.users| <= Max(0, ResolveCap(maxPosts))
    ensures forall i, j :: 0 <= i < j < |r.users| ==>
              HashKey(r.users[i].username) != HashKey(r.users[j].username)
    ensures forall i :: 0 <= i < |r.users| ==> Truthy(r.users[i].username)
    ensures ResolveCap(maxPosts) <= 0 ==> r.users == [] && r.net == net
  {
    var c := Loop("#" + hashtag, ResolveCap(maxPosts), None, [], net);
    if c.raised then HashtagResult([], [], c.net)
    else HashtagResult(Values(c.users), c.raw, c.net)
  }

  // ---------------------------------------------------------------------
  // The reference: first occurrence per author over all items seen.

  /** What an item contributes when judged on its own. */
  function ItemEntry(item: Json): Option<Entry> {
    match Candidate(item, {})
    case Ok(o) => o
    case Raised => None
  }

  function Entries(items: seq<Json>): (r: seq<Option<Entry>>)
    ensures |r| == |items| && forall i :: 0 <= i < |items| ==> r[i] == ItemEntry(items[i])
  {
    if |items| == 0 then [] else [ItemEntry(items[0])] + Entries(items[1..])
  }

  /** Keep the first entry of every key not in `seen`, in order. */
  function Dedup(es: seq<Option<Entry>>, seen: set<Key>): seq<Entry> {
    if |es| == 0 then []
    else if es[0].None? || es[0].value.key in seen then Dedup(es[1..], seen)
    else [es[0].value] + Dedup(es[1..], seen + {es[0].value.key})
  }

  /** The index of the first entry with key `k` (`|es|` when there is none). */
  function FirstIndex(es: seq<Option<Entry>>, k: Key): (i: nat)
    ensures i <= |es|
  {
    if |es| == 0 then 0
    else if es[0].Some? && es[0].value.key == k then 0
    else 1 + FirstIndex(es[1..], k)
  }

  /** `Dedup` keeps only unseen keys, each at most once. */
  lemma {:induction false} DedupDistinct(es: seq<Option<Entry>>, seen: set<Key>)
    ensures forall e :: e in Dedup(es, seen) ==> e.key !in seen
    ensures DistinctKeys(Dedup(es, seen))
  {
    if |es| > 0 {
      if es[0].None? || es[0].value.key in seen {
        DedupDistinct(es[1..], seen);
      } else {
        DedupDistinct(es[1..], seen + {es[0].value.key});
      }
    }
  }

  lemma FirstIndexTail(es: seq<Option<Entry>>, k: Key)
    requires |es| > 0 && !(es[0].Some? && es[0].value.key == k)
    ensures FirstIndex(es, k) == 1 + FirstIndex(es[1..], k)
  {
  }

  /** Every entry `Dedup` keeps is the first occurrence of its key. */
  lemma {:induction false} DedupKeepsFirst(es: seq<Option<Entry>>, seen: set<Key>)
    ensures forall e :: e in Dedup(es, seen) ==>
              FirstIndex(es, e.key) < |es| && es[FirstIndex(es, e.key)] == Some(e)
  {
    if |es| > 0 {
      var tail := es[1..];
      if es[0].None? || es[0].value.key in seen {
        DedupKeepsFirst(tail, seen);
        DedupDistinct(tail, seen);
        assert Dedup(es, seen) == Dedup(tail, seen);
        forall e | e in Dedup(es, seen)
          ensures FirstIndex(es, e.key) < |es| && es[FirstIndex(es, e.key)] == Some(e)
        {
          FirstIndexTail(es, e.key);
          var j := FirstIndex(tail, e.key);
          assert es[1 + j] == tail[j];
        }
      } else {
        var x := es[0].value;
        DedupKeepsFirst(tail, seen + {x.key});
        DedupDistinct(tail, seen + {x.key});
        assert Dedup(es, seen) == [x] + Dedup(tail, seen + {x.key});
        forall e | e in Dedup(es, seen)
          ensures FirstIndex(es, e.key) < |es| && es[FirstIndex(es, e.key)] == Some(e)
        {
          if e != x {
            assert e in Dedup(tail, seen + {x.key});
            FirstIndexTail(es, e.key);
            var j := FirstIndex(tail, e.key);
            assert es[1 + j] == tail[j];
          }
        }
      }
    }
  }

  /** `Dedup` lists the kept entries in the order of their first occurrences. */
  lemma {:induction false} DedupInOrder(es: seq<Option<Entry>>, seen: set<Key>)
    ensures forall i, j :: 0 <= i < j < |Dedup(es, seen)| ==>
              FirstIndex(es, Dedup(es, seen)[i].key) < FirstIndex(es, Dedup(es, seen)[j].key)
  {
    if |es| > 0 {
      var tail := es[1..];
      if es[0].None? || es[0].value.key in seen {
        DedupInOrder(tail, seen);
        DedupDistinct(tail, seen);
        var out := Dedup(tail, seen);
        assert Dedup(es, seen) == out;
        forall i | 0 <= i < |out|
          ensures FirstIndex(es, out[i].key) == 1 + FirstIndex(tail, out[i].key)
        {
          assert out[i] in out;
          FirstIndexTail(es, out[i].key);
        }
        forall i, j | 0 <= i < j < |out|
          ensures FirstIndex(es, out[i].key) < FirstIndex(es, out[j].key)
        {
          assert FirstIndex(tail, out[i].key) < FirstIndex(tail, out[j].key);
        }
      } else {
        var x := es[0].value;
        DedupInOrder(tail, seen + {x.key});
        DedupDistinct(tail, seen + {x.key});
        var rest := Dedup(tail, seen + {x.key});
        var out := Dedup(es, seen);
        assert out == [x] + rest;
        assert FirstIndex(es, x.key) == 0;
        forall i | 0 <= i < |rest|
          ensures FirstIndex(es, rest[i].key) == 1 + FirstIndex(tail, rest[i].key)
        {
          assert rest[i] in rest;
          FirstIndexTail(es, rest[i].key);
        }
        forall i, j | 0 <= i < j < |out|
          ensures FirstIndex(es, out[i].key) < FirstIndex(es, out[j].key)
        {
          assert out[j] == rest[j - 1];
          assert FirstIndex(es, out[j].key) == 1 + FirstIndex(tail, rest[j - 1].key);
          if i > 0 {
            assert out[i] == rest[i - 1];
            assert FirstIndex(es, out[i].key) == 1 + FirstIndex(tail, rest[i - 1].key);
            assert FirstIndex(tail, rest[i - 1].key) < FirstIndex(tail, rest[j - 1].key);
          } else {
            assert out[i] == x;
          }
        }
      }
    }
  }

  /** Every key occurring in `es` and not in `seen` is kept. */
  lemma {:induction false} DedupComplete(es: seq<Option<Entry>>, seen: set<Key>)
    ensures forall i :: 0 <= i < |es| && es[i].Some? && es[i].value.key !in seen ==>
              es[i].value.key in KeysOf(Dedup(es, seen))
  {
    if |es| > 0 {
      var tail := es[1..];
      if es[0].None? || es[0].value.key in seen {
        DedupComplete(tail, seen);
        forall i | 0 <= i < |es| && es[i].Some? && es[i].value.key !in seen
          ensures es[i].value.key in KeysOf(Dedup(es, seen))
        {
          assert es[i] == tail[i - 1];
        }
      } else {
        var x := es[0].value;
        DedupComplete(tail, seen + {x.key});
        var out := Dedup(es, seen);
        assert x in out;
        forall i | 0 <= i < |es| && es[i].Some? && es[i].value.key !in seen
          ensures es[i].value.key in KeysOf(out)
        {
          if es[i].value.key != x.key {
            assert es[i] == tail[i - 1];
          }
        }
      }
    }
  }

  /** `Dedup` keeps exactly the first occurrence of every unseen key, in the
      order those first occurrences appear. */
  lemma DedupFirstWins(es: seq<Option<Entry>>, seen: set<Key>)
    ensures var out := Dedup(es, seen);
      && (forall i :: 0 <= i < |out| ==> out[i].key !in seen)
      && DistinctKeys(out)
      && (forall i :: 0 <= i < |out| ==>
            FirstIndex(es, out[i].key) < |es| && es[FirstIndex(es, out[i].key)] == Some(out[i]))
      && (forall i, j :: 0 <= i < j < |out| ==>
            FirstIndex(es, out[i].key) < FirstIndex(es, out[j].key))
      && (forall i :: 0 <= i < |es| && es[i].Some? && es[i].value.key !in seen ==>
            es[i].value.key in KeysOf(out))
  {
    DedupDistinct(es, seen);
    DedupKeepsFirst(es, seen);
    DedupInOrder(es, seen);
    DedupComplete(es, seen);
    var out := Dedup(es, seen);
    assert forall i :: 0 <= i < |out| ==> out[i] in out;
  }

  lemma KeysOfAppend(a: seq<Entry>, b: seq<Entry>)
    ensures KeysOf(a + b) == KeysOf(a) + KeysOf(b)
  {
    assert forall e :: e in a + b <==> e in a || e in b;
  }

  /** Deduplicating two pages is deduplicating the first, then the second
      against everything the first contributed. */
  lemma {:induction false} DedupAppend(a: seq<Option<Entry>>, b: seq<Option<Entry>>, seen: set<Key>)
    ensures Dedup(a + b, seen) == Dedup(a, seen) + Dedup(b, seen + KeysOf(Dedup(a, seen)))
  {
    if |a| == 0 {
      assert a + b == b;
      assert Dedup(a, seen) == [];
      assert KeysOf([]) == {};
      assert seen + KeysOf(Dedup(a, seen)) == seen;
    } else {
      assert (a + b)[0] == a[0];
      assert (a + b)[1..] == a[1..] + b;
      if a[0].None? || a[0].value.key in seen {
        DedupAppend(a[1..], b, seen);
      } else {
        var e := a[0].value;
        DedupAppend(a[1..], b, seen + {e.key});
        var d := Dedup(a[1..], seen + {e.key});
        KeysOfAppend([e], d);
        assert KeysOf([e]) == {e.key};
        assert seen + KeysOf([e] + d) == seen + {e.key} + KeysOf(d);
      }
    }
  }

  lemma {:induction false} EntriesAppend(a: seq<Json>, b: seq<Json>)
    ensures Entries(a + b) == Entries(a) + Entries(b)
  {
    if |a| == 0 {
      assert a + b == b;
    } else {
      assert (a + b)[1..] == a[1..] + b;
      EntriesAppend(a[1..], b);
    }
  }

  /** Whenever the crawl's per-item decision does not raise, it agrees with
      the item's own entry: skipped exactly when it has none or its key is
      seen. */
  lemma CandidateAgrees(item: Json, seen: set<Key>)
    requires Candidate(item, seen).Ok?
    ensures Candidate(item, seen) ==
              (if ItemEntry(item).Some? && ItemEntry(item).value.key in seen
               then Ok(None) else Ok(ItemEntry(item)))
  {
  }

  /** One page: the authors added are the page's deduplicated new authors,
      cut at the cap. */
  lemma {:induction false} AddUsersIsTakeOfDedup(items: seq<Json>, users: seq<Entry>, cap: int)
    requires !AddUsers(items, users, cap).1
    ensures AddUsers(items, users, cap) ==
              (users + Take(Dedup(Entries(items), KeysOf(users)), cap - |users|), false)
  {
    var seen := KeysOf(users);
    if |items| == 0 {
      assert Dedup(Entries(items), seen) == [];
      assert Take<Entry>([], cap - |users|) == [];
      assert users + [] == users;
    } else if |users| >= cap {
      assert AddUsers(items, users, cap) == (users, false);
      assert Take(Dedup(Entries(items), seen), cap - |users|) == [];
      assert users + [] == users;
    } else {
      var o := ItemEntry(items[0]);
      CandidateAgrees(items[0], seen);
      if o.None? || o.value.key in seen {
        assert AddUsers(items, users, cap) == AddUsers(items[1..], users, cap);
        AddUsersIsTakeOfDedup(items[1..], users, cap);
        DedupSkip(items, seen);
      } else {
        var e := o.value;
        AddUsersCons(items, users, cap, e);
        AddUsersIsTakeOfDedup(items[1..], users + [e], cap);
        AddUsersAdd(items, users, cap, e, AddUsers(items[1..], users + [e], cap).0);
      }
    }
  }

  lemma {:induction false} DedupSkip(items: seq<Json>, seen: set<Key>)
    requires |items| > 0
    requires ItemEntry(items[0]).None? || ItemEntry(items[0]).value.key in seen
    ensures Dedup(Entries(items), seen) == Dedup(Entries(items[1..]), seen)
  {
    assert Entries(items)[1..] == Entries(items[1..]);
  }

  /** An item with a new author adds that author's entry first. */
  lemma {:induction false} AddUsersAdd(items: seq<Json>, users: seq<Entry>, cap: int, e: Entry, rest: seq<Entry>)
    requires |items| > 0 && |users| < cap
    requires ItemEntry(items[0]) == Some(e) && e.key !in KeysOf(users)
    requires rest == users + [e] + Take(Dedup(Entries(items[1..]), KeysOf(users + [e])),
                                        cap - |users + [e]|)
    ensures rest == users + Take(Dedup(Entries(items), KeysOf(users)), cap - |users|)
  {
    var seen := KeysOf(users);
    DedupCons(items, seen, e);
    KeysOfSnoc(users, e);
    TakeConsStep(users, e, Dedup(Entries(items[1..]), seen + {e.key}), cap - |users|);
  }

  lemma {:induction false} AddUsersCons(items: seq<Json>, users: seq<Entry>, cap: int, e: Entry)
    requires |items| > 0 && |users| < cap
    requires Candidate(items[0], KeysOf(users)) == Ok(Some(e))
    ensures AddUsers(items, users, cap) == AddUsers(items[1..], users + [e], cap)
  {
  }

  lemma {:induction false} DedupCons(items: seq<Json>, seen: set<Key>, e: Entry)
    requires |items| > 0 && ItemEntry(items[0]) == Some(e) && e.key !in seen
    ensures Dedup(Entries(items), seen) == [e] + Dedup(Entries(items[1..]), seen + {e.key})
  {
    var es := Entries(items);
    assert es[1..] == Entries(items[1..]);
    assert es[0] == Some(e);
  }

  lemma KeysOfSnoc(users: seq<Entry>, e: Entry)
    ensures KeysOf(users + [e]) == KeysOf(users) + {e.key}
  {
    KeysOfAppend(users, [e]);
    assert KeysOf([e]) == {e.key};
  }

  lemma TakeConsStep<T>(prefix: seq<T>, x: T, d: seq<T>, n: int)
    requires n >= 1
    ensures prefix + [x] + Take(d, n - 1) == prefix + Take([x] + d, n)
  {
    assert Take([x] + d, n) == [x] + Take(d, n - 1);
  }

  lemma TakeAppend<T>(x: seq<T>, y: seq<T>, n: int)
    requires |x| < n
    ensures Take(x + y, n) == x + Take(y, n - |x|)
  {
  }

  /** Two pages' worth of new authors, joined. */
  lemma JoinPages(users: seq<Entry>, d: seq<Entry>, e2: seq<Option<Entry>>, cap: int)
    requires |users| + |d| < cap
    ensures var seen := KeysOf(users);
      users + d + Take(Dedup(e2, KeysOf(users + d)), cap - |users + d|)
        == users + Take(d + Dedup(e2, seen + KeysOf(d)), cap - |users|)
  {
    var n := cap - |users|;
    KeysOfAppend(users, d);
    var y := Dedup(e2, KeysOf(users + d));
    assert y == Dedup(e2, KeysOf(users) + KeysOf(d));
    TakeAppend(d, y, n);
    assert cap - |users + d| == n - |d|;
    var t := Take(y, n - |d|);
    assert users + d + t == users + (d + t);
  }

  /** The page loop returns, whenever it does not raise, the first `cap` distinct
      authors of all the items it collected. */
  lemma {:induction false} LoopIsTakeOfDedup(query: string, cap: int, cursor: Option<Json>,
                                            users: seq<Entry>, net: Net)
    decreases |net.tape|, 2
    requires !Loop(query, cap, cursor, users, net).raised
    ensures Loop(query, cap, cursor, users, net).users ==
              users + Take(Dedup(Entries(Loop(query, cap, cursor, users, net).raw),
                                 KeysOf(users)), cap - |users|)
  {
    var r := Loop(query, cap, cursor, users, net);
    if |users| >= cap {
      assert Take(Dedup(Entries(r.raw), KeysOf(users)), cap - |users|) == [];
      assert users + [] == users;
    } else {
      var p := FetchPage(query, cap, cursor, users, net);
      assert r == AfterPage(query, cap, p, |net.tape|);
      AfterPageIsTakeOfDedup(query, cap, p, |net.tape|, users);
    }
  }

  /** The same for the rest of a round, given a page whose items `AddUsers`
      processed from `users`. */
  lemma {:induction false} AfterPageIsTakeOfDedup(query: string, cap: int, p: Page, bound: nat,
                                                 users: seq<Entry>)
    decreases bound, 1
    requires p.next.Some? ==> |p.net.tape| < bound && !p.raised
    requires |users| < cap
    requires !p.raised ==> AddUsers(p.items, users, cap) == (p.users, false)
    requires !AfterPage(query, cap, p, bound).raised
    ensures AfterPage(query, cap, p, bound).users ==
              users + Take(Dedup(Entries(AfterPage(query, cap, p, bound).raw),
                                 KeysOf(users)), cap - |users|)
  {
    if p.next.None? {
      var r := AfterPage(query, cap, p, bound);
      assert r == Crawl(p.users, p.items, p.raised, p.net);
      AddUsersIsTakeOfDedup(p.items, users, cap);
    } else {
      NextPageIsTakeOfDedup(query, cap, p, bound, users);
    }
  }

  /** A page with a cursor: its own new authors, then the later rounds'. */
  lemma {:induction false} NextPageIsTakeOfDedup(query: string, cap: int, p: Page, bound: nat,
                                                users: seq<Entry>)
    decreases bound, 0
    requires p.next.Some?
    requires p.next.Some? ==> |p.net.tape| < bound && !p.raised
    requires |users| < cap
    requires !p.raised ==> AddUsers(p.items, users, cap) == (p.users, false)
    requires !AfterPage(query, cap, p, bound).raised
    ensures AfterPage(query, cap, p, bound).users ==
              users + Take(Dedup(Entries(AfterPage(query, cap, p, bound).raw),
                                 KeysOf(users)), cap - |users|)
  {
    var r := AfterPage(query, cap, p, bound);
    var later := Loop(query, cap, p.next, p.users, p.net);
    assert r == Crawl(later.users, p.items + later.raw, later.raised, later.net);
    assert |p.users| >= cap ==> later.raw == [];
    LoopIsTakeOfDedup(query, cap, p.next, p.users, p.net);
    PageThenLater(users, p.items, later.raw, r.raw, cap, p.users, later.users);
  }

  /** `PageJoin` for a page that `AddUsers` processed without raising. */
  lemma PageThenLater(users: seq<Entry>, items: seq<Json>, later: seq<Json>, all: seq<Json>,
                      cap: int, pusers: seq<Entry>, rest: seq<Entry>)
    requires |users| < cap
    requires all == items + later
    requires AddUsers(items, users, cap) == (pusers, false)
    requires rest == pusers + Take(Dedup(Entries(later), KeysOf(pusers)), cap - |pusers|)
    requires |pusers| >= cap ==> later == []
    ensures rest == users + Take(Dedup(Entries(all), KeysOf(users)), cap - |users|)
  {
    AddUsersIsTakeOfDedup(items, users, cap);
    PageJoin(users, items, later, cap, pusers, rest);
  }

  /** One page followed by the rest of the crawl: the first page's
      deduplicated authors, then the later pages' authors deduplicated
      against everything before them, is one deduplication of all items. */
  lemma PageJoin(users: seq<Entry>, items: seq<Json>, later: seq<Json>, cap: int,
                 pusers: seq<Entry>, rest: seq<Entry>)
    requires |users| < cap
    requires pusers == users + Take(Dedup(Entries(items), KeysOf(users)), cap - |users|)
    requires rest == pusers + Take(Dedup(Entries(later), KeysOf(pusers)), cap - |pusers|)
    requires |pusers| >= cap ==> later == []
    ensures rest == users + Take(Dedup(Entries(items + later), KeysOf(users)), cap - |users|)
  {
    var seen := KeysOf(users);
    var d := Dedup(Entries(items), seen);
    EntriesAppend(items, later);
    DedupAppend(Entries(items), Entries(later), seen);
    if |pusers| >= cap {
      assert Entries(later) == [];
      assert Dedup(Entries(later), seen + KeysOf(d)) == [];
      assert d + [] == d;
      assert rest == pusers + [];
    } else {
      assert Take(d, cap - |users|) == d;
      JoinPages(users, d, Entries(later), cap);
    }
  }

  /** `get_hashtag_users` keeps, among all the items it collected, the first
      record of each distinct author, in first-seen order, cut at
      `max_posts`. */
  lemma HashtagUsersFirstPerAuthor(hashtag: string, maxPosts: Option<int>, net: Net)
    ensures HashtagUsers(hashtag, maxPosts, net).users ==
              Values(Take(Dedup(Entries(HashtagUsers(hashtag, maxPosts, net).rawMedias), {}),
                          ResolveCap(maxPosts)))
  {
    var cap := ResolveCap(maxPosts);
    var c := Loop("#" + hashtag, cap, None, [], net);
    var h := HashtagUsers(hashtag, maxPosts, net);
    if c.raised {
      assert h.users == [] && h.rawMedias == [];
      assert Take(Dedup(Entries([]), {}), cap) == [];
    } else {
      assert h.users == Values(c.users) && h.rawMedias == c.raw;
      LoopIsTakeOfDedup("#" + hashtag, cap, None, [], net);
      assert KeysOf([]) == {};
      assert c.users == Take(Dedup(Entries(c.raw), {}), cap);
    }
  }
}
