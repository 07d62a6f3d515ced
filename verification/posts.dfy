/**
 `get_hashtag_posts_with_comments`: one search page for the hashtag, then,
 for each of the first `max_posts` items that carry a `pk`, the post's
 fields and its comment list from the paginated comment crawler. The result
 is a Python dict keyed by the post `pk`, in insertion order.
 */
module Posts {
  import opened PyJson
  import opened Network
  import opened Normalizer
  import opened Comments

  /** The fields kept for one post. */
  datatype PostInfo = PostInfo(
    pk: Json, username: Json, fullName: Json, text: Json,
    likeCount: Json, commentCount: Json, locationName: Json)

  /** One value of the result dict: the post and its comment list. */
  datatype Post = Post(info: PostInfo, comments: seq<CommentRecord>)

  /** A Python dict: its bindings in insertion order. */
  type Dict<V> = seq<(Key, V)>

  function KeySet<V>(d: Dict<V>): set<Key> {
    set i | 0 <= i < |d| :: d[i].0
  }

  predicate DistinctKeys<V>(d: Dict<V>) {
    forall i, j :: 0 <= i < j < |d| ==> d[i].0 != d[j].0
  }

  /** `d[k]`, or `None` when `k` is not a key. */
  function Find<V>(d: Dict<V>, k: Key): (r: Option<V>)
    ensures r.Some? <==> k in KeySet(d)
  {
    if |d| == 0 then None
    else if d[0].0 == k then Some(d[0].1)
    else
      KeySetCons(d);
      Find(d[1..], k)
  }

  /** `d[k] = v`: an existing key keeps its place and takes the new value;
      a new key goes at the end. */
  function DictSet<V>(d: Dict<V>, k: Key, v: V): (r: Dict<V>)
    requires DistinctKeys(d)
    ensures DistinctKeys(r)
    ensures KeySet(r) == KeySet(d) + {k}
    ensures |r| == if k in KeySet(d) then |d| else |d| + 1
    ensures forall i :: 0 <= i < |d| ==> r[i].0 == d[i].0
  {
    if |d| == 0 then
      assert KeySet([(k, v)]) == {k} by { assert [(k, v)][0].0 == k; }
      [(k, v)]
    else
      KeySetCons(d);
      DistinctTail(d);
      if d[0].0 == k then
        var r := [(k, v)] + d[1..];
        assert r[1..] == d[1..];
        KeySetCons(r);
        DistinctCons((k, v), d[1..]);
        r
      else
        var rest := DictSet(d[1..], k, v);
        var r := [d[0]] + rest;
        assert r[1..] == rest;
        KeySetCons(r);
        DistinctCons(d[0], rest);
        r
  }

  lemma DistinctTail<V>(d: Dict<V>)
    requires |d| > 0 && DistinctKeys(d)
    ensures DistinctKeys(d[1..]) && d[0].0 !in KeySet(d[1..])
  {
    forall i, j | 0 <= i < j < |d| - 1 ensures d[1..][i].0 != d[1..][j].0 {
      assert d[1..][i] == d[i + 1] && d[1..][j] == d[j + 1];
    }
    forall i | 0 <= i < |d| - 1 ensures d[1..][i].0 != d[0].0 {
      assert d[1..][i] == d[i + 1];
    }
  }

  lemma DistinctCons<V>(e: (Key, V), d: Dict<V>)
    requires DistinctKeys(d) && e.0 !in KeySet(d)
    ensures DistinctKeys([e] + d)
  {
    var r := [e] + d;
    forall i, j | 0 <= i < j < |r| ensures r[i].0 != r[j].0 {
      if i == 0 {
        assert r[j] == d[j - 1];
        assert d[j - 1].0 in KeySet(d);
      } else {
        assert r[i] == d[i - 1] && r[j] == d[j - 1];
      }
    }
  }

  lemma KeySetCons<V>(d: Dict<V>)
    requires |d| > 0
    ensures KeySet(d) == {d[0].0} + KeySet(d[1..])
  {
    forall x | x in KeySet(d) ensures x in {d[0].0} + KeySet(d[1..]) {
      var i :| 0 <= i < |d| && d[i].0 == x;
      if i > 0 { assert d[1..][i - 1].0 == x; }
    }
    forall x | x in KeySet(d[1..]) ensures x in KeySet(d) {
      var i :| 0 <= i < |d[1..]| && d[1..][i].0 == x;
      assert d[i + 1].0 == x;
    }
  }

  /** Assignment behaves as a map update: `k` now finds `v`, and every other
      key finds what it found before. */
  lemma {:induction false} DictSetFind<V>(d: Dict<V>, k: Key, v: V, k': Key)
    requires DistinctKeys(d)
    ensures Find(DictSet(d, k, v), k') == if k' == k then Some(v) else Find(d, k')
  {
    if |d| > 0 && d[0].0 != k {
      DistinctTail(d);
      DictSetFind(d[1..], k, v, k');
      assert ([d[0]] + DictSet(d[1..], k, v))[1..] == DictSet(d[1..], k, v);
    }
  }

  /** What the loop reads from one search item before deciding to keep it:
      `None` when its `pk` is falsy. Every `.get` on a non-dict raises. */
  function ReadPost(item: Json): (r: Py<Option<PostInfo>>)
    ensures r.Ok? && r.value.Some? ==> Truthy(r.value.value.pk)
  {
    var media :- GetOr(item, "media", item);
    var pk :- Get(media, "pk");
    var c :- Get(media, "caption");
    var caption := Or(c, EmptyObj);
    var u :- Get(caption, "user");
    var user := Or(u, EmptyObj);
    var l :- Get(media, "location");
    var location := Or(l, EmptyObj);
    if !Truthy(pk) then Ok(None)
    else
      var username :- GetOr(user, "username", JStr(""));
      var fullName :- GetOr(user, "full_name", JStr(""));
      var text :- GetOr(caption, "text", JStr(""));
      var likes :- GetOr(media, "like_count", JNum(0));
      var comments :- GetOr(media, "comment_count", JNum(0));
      var place :- GetOr(location, "name", JStr(""));
      Ok(Some(PostInfo(pk, username, fullName, text, likes, comments, place)))
  }

  /** What every entry of the result satisfies: its key is the hash of a
      truthy `pk`, and its comments are a list of at most `maxComments`
      threads of the post whose id is `str(pk)`. */
  predicate GoodEntry(e: (Key, Post), maxComments: int) {
    && Truthy(e.1.info.pk)
    && HashKey(e.1.info.pk) == Ok(e.0)
    && !(e.1.info.pk.JArr? || e.1.info.pk.JObj?)
    && |e.1.comments| <= Max(0, maxComments)
    && AllShaped(Regroup(e.1.comments), PyStr(e.1.info.pk))
  }

  predicate AllGood(d: Dict<Post>, maxComments: int) {
    forall i :: 0 <= i < |d| ==> GoodEntry(d[i], maxComments)
  }

  /** The loop state: the dict, the counter, whether an exception escaped,
      and the network. */
  datatype PostsRun = PostsRun(posts: Dict<Post>, count: int, raised: bool, net: Net)

  /** `for media_item in medias`: stop once `count >= max_posts`; skip an
      item without a `pk`; otherwise store the post under its `pk` (a repeated
      `pk` replaces the earlier entry in place), fetch its comments, and
      count it. */
  function PostItems(items: seq<Json>, count: int, maxPosts: int, maxComments: int,
                     posts: Dict<Post>, net: Net): (r: PostsRun)
    decreases |items|
    requires DistinctKeys(posts)
    ensures DistinctKeys(r.posts)
    ensures count <= r.count <= Max(count, maxPosts)
    ensures |r.posts| <= |posts| + (r.count - count)
    ensures KeySet(posts) <= KeySet(r.posts)
    ensures AllGood(posts, maxComments) ==> AllGood(r.posts, maxComments)
    ensures !r.raised ==>
              KeySet(r.posts) == KeySet(posts) + SelectedKeys(Selected(items, maxPosts - count)) &&
              r.count == count + |Selected(items, maxPosts - count)|
    ensures Advances(net, r.net)
  {
    if |items| == 0 || count >= maxPosts then PostsRun(posts, count, false, net)
    else
      match ItemKey(items[0])
      case Raised => PostsRun(posts, count, true, net)
      case Ok(None) => PostItems(items[1..], count, maxPosts, maxComments, posts, net)
      case Ok(Some((k, info))) =>
        var (posts1, net1) := StorePost(info, k, maxComments, posts, net);
        var r := PostItems(items[1..], count + 1, maxPosts, maxComments, posts1, net1);
        AdvancesTransitive(net, net1, r.net);
        SelectedKeysCons((k, info), Selected(items[1..], maxPosts - count - 1));
        r
  }

  /** A search item read as a post to keep: `None` when its `pk` is falsy,
      otherwise the key `posts_data[media_pk]` hashes to and the fields. */
  function ItemKey(item: Json): (r: Py<Option<(Key, PostInfo)>>)
    ensures r.Ok? && r.value.Some? ==>
              Truthy(r.value.value.1.pk) && HashKey(r.value.value.1.pk) == Ok(r.value.value.0)
  {
    var post :- ReadPost(item);
    match post
    case None => Ok(None)
    case Some(info) =>
      var k :- HashKey(info.pk);
      Ok(Some((k, info)))
  }

  /** The body of the loop for a kept post: fetch its comments with the
      paginated crawler, under the id `str(media_pk)`, and store the post
      under its `pk`. */
  function StorePost(info: PostInfo, k: Key, maxComments: int, posts: Dict<Post>,
                     net: Net): (r: (Dict<Post>, Net))
    requires DistinctKeys(posts)
    requires Truthy(info.pk) && HashKey(info.pk) == Ok(k)
    ensures DistinctKeys(r.0)
    ensures KeySet(r.0) == KeySet(posts) + {k}
    ensures |r.0| <= |posts| + 1
    ensures Find(r.0, k).Some? && Find(r.0, k).value.info == info
    ensures AllGood(posts, maxComments) ==> AllGood(r.0, maxComments)
    ensures Advances(net, r.1)
  {
    var (comments, net1) := PostCommentsList(PyStr(info.pk), maxComments, net);
    PostsSetGood(posts, k, Post(info, comments), maxComments);
    DictSetFind(posts, k, Post(info, comments), k);
    (DictSet(posts, k, Post(info, comments)), net1)
  }

  lemma PostsSetGood(d: Dict<Post>, k: Key, p: Post, maxComments: int)
    requires DistinctKeys(d)
    ensures AllGood(d, maxComments) && GoodEntry((k, p), maxComments) ==>
              AllGood(DictSet(d, k, p), maxComments)
  {
    if AllGood(d, maxComments) && GoodEntry((k, p), maxComments) {
      var r := DictSet(d, k, p);
      forall i | 0 <= i < |r| ensures GoodEntry(r[i], maxComments) {
        DictSetAt(d, k, p, i);
      }
    }
  }

  /** Every binding of `DictSet(d, k, v)` is a binding of `d` or `(k, v)`. */
  lemma {:induction false} DictSetAt<V>(d: Dict<V>, k: Key, v: V, i: int)
    requires DistinctKeys(d)
    requires 0 <= i < |DictSet(d, k, v)|
    ensures DictSet(d, k, v)[i] == (k, v) || (i < |d| && DictSet(d, k, v)[i] == d[i])
  {
    if |d| > 0 && d[0].0 != k && i > 0 {
      DistinctTail(d);
      DictSetAt(d[1..], k, v, i - 1);
    }
  }

  /** `get_hashtag_posts_with_comments(hashtag, max_posts, max_comments_per_post)`
      (the source's defaults are 10 and 50). No data, no media list, or an
      exception anywhere gives the empty dict. */
  function HashtagPostsWithComments(hashtag: string, maxPosts: int, maxComments: int,
                                    net: Net): (r: (Dict<Post>, Net))
    ensures DistinctKeys(r.0)
    ensures |r.0| <= Max(0, maxPosts)
    ensures AllGood(r.0, maxComments)
    ensures Advances(net, r.1)
    ensures |r.1.sent| > |net.sent| && r.1.sent[|net.sent|] == Request(TopSerp("#" + hashtag), None)
  {
    var (data, net1) := ApiRequest(Request(TopSerp("#" + hashtag), None), net);
    if data.None? || !Truthy(data.value) then ([], net1)
    else
      match Extract(data.value)
      case Raised => ([], net1)
      case Ok(medias) =>
        if !Truthy(medias) then ([], net1)
        else
          match Iter(medias)
          case Raised => ([], net1)
          case Ok(items) =>
            var run := PostItems(items, 0, maxPosts, maxComments, [], net1);
            AdvancesTransitive(net, net1, run.net);
            (if run.raised then [] else run.posts, run.net)
  }

  /** Which posts come back: the search response's media list, read as in
      `_extract_medias_from_response`, selects them. When that list is
      non-empty and the loop over it raises nothing, the result holds exactly
      the first `max_posts` items with a truthy `pk`; every other outcome is
      the empty dict. */
  lemma HashtagPostsKeys(hashtag: string, maxPosts: int, maxComments: int, net: Net)
    ensures var r := HashtagPostsWithComments(hashtag, maxPosts, maxComments, net);
            var a := ApiRequest(Request(TopSerp("#" + hashtag), None), net);
            if a.0.Some? && Truthy(a.0.value) && Extract(a.0.value).Ok?
               && Truthy(Extract(a.0.value).value) && Iter(Extract(a.0.value).value).Ok?
            then
              var items := Iter(Extract(a.0.value).value).value;
              var run := PostItems(items, 0, maxPosts, maxComments, [], a.1);
              && (run.raised ==> r.0 == [])
              && (!run.raised ==> KeySet(r.0) == SelectedKeys(Selected(items, maxPosts)))
            else r.0 == []
  {
    assert KeySet<Post>([]) == {};
  }

  // ---------------------------------------------------------------------
  // Which posts are kept

  /** The reference choice of posts when no item makes the loop raise: the
      first `budget` items with a truthy `pk`, as `(key, info)` pairs. */
  function Selected(items: seq<Json>, budget: int): seq<(Key, PostInfo)>
    decreases |items|
  {
    if |items| == 0 || budget <= 0 then []
    else
      match ItemKey(items[0])
      case Ok(Some(e)) => [e] + Selected(items[1..], budget - 1)
      case Ok(None) => Selected(items[1..], budget)
      case Raised => []
  }

  function SelectedKeys(sel: seq<(Key, PostInfo)>): set<Key> {
    set i | 0 <= i < |sel| :: sel[i].0
  }

  lemma SelectedKeysCons(e: (Key, PostInfo), sel: seq<(Key, PostInfo)>)
    ensures SelectedKeys([e] + sel) == {e.0} + SelectedKeys(sel)
  {
    var s := [e] + sel;
    forall x | x in SelectedKeys(s) ensures x in {e.0} + SelectedKeys(sel) {
      var i :| 0 <= i < |s| && s[i].0 == x;
      if i > 0 { assert sel[i - 1].0 == x; }
    }
    forall x | x in SelectedKeys(sel) ensures x in SelectedKeys(s) {
      var i :| 0 <= i < |sel| && sel[i].0 == x;
      assert s[i + 1].0 == x;
    }
    assert s[0].0 == e.0;
  }
}
