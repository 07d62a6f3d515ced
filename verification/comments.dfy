/**
 The two comment crawlers: `get_post_comment_users` (the tree view, with
 `_get_child_comments_for_tree`) and its paginated twin
 `_get_post_comments_list` (with `_process_comments_page`,
 `_get_child_comments_list` and `_process_child_comments_page`).

 Both walk the pages of top-level comments. Each comment is appended as a
 parent record, and its replies are fetched straight away and appended right
 after it, under a budget computed from the live length of the output. The
 crawl is represented as a sequence of threads (a parent and its replies);
 the flat list the source returns is their concatenation, `Flatten`.
 */
module Comments {
  import opened PyJson
  import opened Network

  /** The cap used when the caller passes `max_comments=None`. */
  const DefaultMaxComments: int := 100

  /** The `level` column of a top-level comment and of a reply. */
  const ParentLevel: string := ""
  const ChildLevel: string := "  \U{2514}\U{2500}"

  /** The fixed columns of one comment or reply. */
  datatype CommentRecord = CommentRecord(
    level: string, username: Json, fullName: Json, text: Json,
    likeCount: Json, childCount: Json, pk: Json, mediaId: string)

  /** A top-level comment and the replies listed after it. */
  datatype Thread = Thread(parent: CommentRecord, replies: seq<CommentRecord>)

  /** The two crawlers differ in three ways: the tree view prints each
      comment's text (slicing it, which raises on a non-string), fetches only
      the first page of replies and keeps the replies read before an
      exception; the paginated twin prints nothing, follows the reply cursor
      and drops all replies of a parent on an exception. */
  datatype Style = Tree | Paged

  function Flatten(ts: seq<Thread>): seq<CommentRecord>
    decreases |ts|
  {
    if |ts| == 0 then [] else [ts[0].parent] + ts[0].replies + Flatten(ts[1..])
  }

  lemma {:induction false} FlattenAppend(a: seq<Thread>, b: seq<Thread>)
    decreases |a|
    ensures Flatten(a + b) == Flatten(a) + Flatten(b)
  {
    if |a| == 0 {
      assert a + b == b;
    } else {
      assert (a + b)[1..] == a[1..] + b;
      FlattenAppend(a[1..], b);
    }
  }

  lemma FlattenSnoc(ts: seq<Thread>, t: Thread)
    ensures Flatten(ts + [t]) == Flatten(ts) + [t.parent] + t.replies
  {
    FlattenAppend(ts, [t]);
    assert [t][1..] == [];
  }

  /** Thread `i` occupies one contiguous block of the flat list: its parent,
      then its replies, after every earlier thread and before every later one. */
  lemma {:induction false} ThreadBlock(ts: seq<Thread>, i: int)
    requires 0 <= i < |ts|
    ensures Flatten(ts) == Flatten(ts[..i]) + [ts[i].parent] + ts[i].replies + Flatten(ts[i + 1..])
  {
    var a, b := ts[..i] + [ts[i]], ts[i + 1..];
    assert ts == a + b;
    FlattenAppend(a, b);
    FlattenSnoc(ts[..i], ts[i]);
  }

  /** How many records at the front of `s` are not top-level comments. */
  function LeadingReplies(s: seq<CommentRecord>): (n: nat)
    ensures n <= |s|
  {
    if |s| == 0 || s[0].level == ParentLevel then 0 else 1 + LeadingReplies(s[1..])
  }

  /** Reads the threads back from the flat list: each record opens a thread
      and takes the non-top-level records that follow it as its replies. */
  function Regroup(s: seq<CommentRecord>): seq<Thread>
    decreases |s|
  {
    if |s| == 0 then []
    else
      var n := LeadingReplies(s[1..]);
      [Thread(s[0], s[1..1 + n])] + Regroup(s[1 + n..])
  }

  /** Regrouping loses nothing: flattening the threads gives the list back. */
  lemma {:induction false} FlattenRegroup(s: seq<CommentRecord>)
    decreases |s|
    ensures Flatten(Regroup(s)) == s
  {
    if |s| > 0 {
      var n := LeadingReplies(s[1..]);
      FlattenRegroup(s[1 + n..]);
      RegroupStep(s, n, Regroup(s[1 + n..]));
    }
  }

  lemma RegroupStep(s: seq<CommentRecord>, n: nat, ts: seq<Thread>)
    requires 1 + n <= |s|
    requires Flatten(ts) == s[1 + n..]
    ensures Flatten([Thread(s[0], s[1..1 + n])] + ts) == s
  {
    var t := Thread(s[0], s[1..1 + n]);
    assert ([t] + ts)[1..] == ts;
    assert s == [s[0]] + s[1..1 + n] + s[1 + n..];
  }

  /** Parents are marked as top-level, replies are not. */
  predicate Levelled(ts: seq<Thread>) {
    forall i :: 0 <= i < |ts| ==>
      ts[i].parent.level == ParentLevel &&
      forall j :: 0 <= j < |ts[i].replies| ==> ts[i].replies[j].level != ParentLevel
  }

  lemma {:induction false} LeadingRepliesOf(rs: seq<CommentRecord>, tail: seq<CommentRecord>)
    decreases |rs|
    requires forall j :: 0 <= j < |rs| ==> rs[j].level != ParentLevel
    requires |tail| > 0 ==> tail[0].level == ParentLevel
    ensures LeadingReplies(rs + tail) == |rs|
  {
    if |rs| > 0 {
      assert (rs + tail)[1..] == rs[1..] + tail;
      LeadingRepliesOf(rs[1..], tail);
    } else {
      assert rs + tail == tail;
    }
  }

  /** The level markers alone determine the threads: a list built from
      levelled threads regroups into exactly those threads. */
  lemma {:induction false} RegroupFlatten(ts: seq<Thread>)
    decreases |ts|
    requires Levelled(ts)
    ensures Regroup(Flatten(ts)) == ts
  {
    if |ts| > 0 {
      var t, rest := ts[0], ts[1..];
      assert Flatten(ts) == [t.parent] + t.replies + Flatten(rest);
      assert Regroup(Flatten(ts)) == [t] + Regroup(Flatten(rest)) by {
        if |rest| > 0 {
          assert Flatten(rest)[0] == rest[0].parent;
        }
        assert forall j :: 0 <= j < |t.replies| ==> t.replies[j].level != ParentLevel;
        RegroupCons(t, Flatten(rest));
      }
      assert Regroup(Flatten(rest)) == rest by {
        assert Levelled(rest) by {
          forall i | 0 <= i < |rest|
            ensures rest[i] == ts[i + 1]
          {
          }
        }
        RegroupFlatten(rest);
      }
      assert ts == [t] + rest;
    }
  }

  /** One levelled thread in front of a list that starts with a parent. */
  lemma {:induction false} RegroupCons(t: Thread, tail: seq<CommentRecord>)
    requires t.parent.level == ParentLevel
    requires forall j :: 0 <= j < |t.replies| ==> t.replies[j].level != ParentLevel
    requires |tail| > 0 ==> tail[0].level == ParentLevel
    ensures Regroup([t.parent] + t.replies + tail) == [t] + Regroup(tail)
  {
    var s := [t.parent] + t.replies + tail;
    assert s[1..] == t.replies + tail;
    LeadingRepliesOf(t.replies, tail);
    var n := |t.replies|;
    assert s[1..1 + n] == t.replies;
    assert s[1 + n..] == tail;
  }

  lemma ShapedLevelled(ts: seq<Thread>, mediaId: string)
    requires AllShaped(ts, mediaId)
    ensures Levelled(ts)
  {
    assert ChildLevel != ParentLevel;
  }

  // ---------------------------------------------------------------------
  // Records

  /** The record for a top-level comment (`level` empty). */
  function ParentRecord(c: Json, mediaId: string): (r: Py<CommentRecord>)
    ensures r.Ok? ==> r.value.level == ParentLevel && r.value.mediaId == mediaId
    ensures r.Ok? ==> GetOr(c, "child_comment_count", JNum(0)) == Ok(r.value.childCount)
    ensures r.Ok? ==> Get(c, "pk") == Ok(r.value.pk)
  {
    var user :- GetOr(c, "user", EmptyObj);
    var username :- GetOr(user, "username", JStr(""));
    var fullName :- GetOr(user, "full_name", JStr(""));
    var text :- GetOr(c, "text", JStr(""));
    var likes :- GetOr(c, "comment_like_count", JNum(0));
    var count :- GetOr(c, "child_comment_count", JNum(0));
    var pk :- Get(c, "pk");
    Ok(CommentRecord(ParentLevel, username, fullName, text, likes, count, pk, mediaId))
  }

  /** The record for a reply: indented level, and a reply count of 0. */
  function ReplyRecord(c: Json, mediaId: string): (r: Py<CommentRecord>)
    ensures r.Ok? ==> IsReply(r.value, mediaId)
  {
    var user :- GetOr(c, "user", EmptyObj);
    var username :- GetOr(user, "username", JStr(""));
    var fullName :- GetOr(user, "full_name", JStr(""));
    var text :- GetOr(c, "text", JStr(""));
    var likes :- GetOr(c, "comment_like_count", JNum(0));
    var pk :- Get(c, "pk");
    Ok(CommentRecord(ChildLevel, username, fullName, text, likes, JNum(0), pk, mediaId))
  }

  predicate IsReply(r: CommentRecord, mediaId: string) {
    r.level == ChildLevel && r.childCount == JNum(0) && r.mediaId == mediaId
  }

  predicate AllReplies(rs: seq<CommentRecord>, mediaId: string) {
    forall i :: 0 <= i < |rs| ==> IsReply(rs[i], mediaId)
  }

  /** A parent whose replies the crawler asks for: a positive reply count
      and a truthy `pk`. */
  predicate FetchesReplies(parent: CommentRecord) {
    Positive(parent.childCount) == Ok(true) && Truthy(parent.pk)
  }

  /** The parents of `ts` are the records of the first `|ts|` items, in
      order. */
  predicate ParentsOf(items: seq<Json>, ts: seq<Thread>, mediaId: string)
    decreases |ts|
  {
    && |ts| <= |items|
    && (|ts| > 0 ==> ParentRecord(items[0], mediaId) == Ok(ts[0].parent) && ParentsOf(items[1..], ts[1..], mediaId))
  }

  /** As far as both go, the parents of `ts` are the records of `items`, in
      order. */
  predicate LeadingParents(items: seq<Json>, ts: seq<Thread>, mediaId: string) {
    forall i :: 0 <= i < |ts| && i < |items| ==> ParentRecord(items[i], mediaId) == Ok(ts[i].parent)
  }

  lemma {:induction false} ParentsOfIndex(items: seq<Json>, ts: seq<Thread>, mediaId: string)
    decreases |ts|
    requires ParentsOf(items, ts, mediaId)
    ensures |ts| <= |items| && LeadingParents(items, ts, mediaId)
  {
    if |ts| > 0 {
      ParentsOfIndex(items[1..], ts[1..], mediaId);
      forall i | 1 <= i < |ts|
        ensures ParentRecord(items[i], mediaId) == Ok(ts[i].parent)
      {
        assert items[1..][i - 1] == items[i] && ts[1..][i - 1] == ts[i];
      }
    }
  }

  /** The shape of every thread the crawlers build. */
  predicate ThreadShaped(t: Thread, mediaId: string) {
    && t.parent.level == ParentLevel
    && t.parent.mediaId == mediaId
    && AllReplies(t.replies, mediaId)
    && (|t.replies| > 0 ==> FetchesReplies(t.parent))
  }

  predicate AllShaped(ts: seq<Thread>, mediaId: string) {
    forall i :: 0 <= i < |ts| ==> ThreadShaped(ts[i], mediaId)
  }

  /** The endpoint the replies of a parent are fetched from. */
  function ReplyEndpoint(style: Style, mediaId: string, pk: Json): Endpoint {
    match style
    case Tree => TreeChildComments(mediaId, pk)
    case Paged => ChildComments(mediaId, pk)
  }

  /** The `pk`s of the parents in `ts` whose replies may be fetched. */
  function ReplyPks(ts: seq<Thread>): set<Json> {
    set t | t in ts && FetchesReplies(t.parent) :: t.parent.pk
  }

  /** A request for the replies of one of the parents whose `pk` is in `pks`. */
  predicate ReplyRequest(q: Request, style: Style, mediaId: string, pks: set<Json>) {
    match q.endpoint
    case TreeChildComments(m, pk) => style == Tree && m == mediaId && pk in pks
    case ChildComments(m, pk) => style == Paged && m == mediaId && pk in pks
    case _ => false
  }

  // ---------------------------------------------------------------------
  // Replies

  /** `data.get("child_comments", [])`, iterated. */
  function ChildItems(data: Json): (r: Py<seq<Json>>)
    ensures r.Ok? ==> data.JObj?
  {
    var children :- GetOr(data, "child_comments", EmptyArr);
    Iter(children)
  }

  /** Each item of a page read as a reply record, in order. */
  function ReplyRecords(items: seq<Json>, mediaId: string): (r: seq<Py<CommentRecord>>)
    ensures |r| == |items|
  {
    if |items| == 0 then [] else [ReplyRecord(items[0], mediaId)] + ReplyRecords(items[1..], mediaId)
  }

  lemma {:induction false} ReplyRecordsAt(items: seq<Json>, mediaId: string)
    ensures forall i :: 0 <= i < |items| ==> ReplyRecords(items, mediaId)[i] == ReplyRecord(items[i], mediaId)
  {
    if |items| > 0 {
      ReplyRecordsAt(items[1..], mediaId);
      assert forall i :: 1 <= i < |items| ==> items[i] == items[1..][i - 1];
    }
  }

  lemma ReplyRecordsTake(items: seq<Json>, n: int, mediaId: string)
    ensures ReplyRecords(Take(items, n), mediaId) == Take(ReplyRecords(items, mediaId), n)
  {
    var t := Take(items, n);
    ReplyRecordsAt(items, mediaId);
    ReplyRecordsAt(t, mediaId);
    assert forall i :: 0 <= i < |t| ==> t[i] == items[i];
  }

  /** The replies the tree view reads from a page's records when no budget
      stops it: up to the first record that could not be built, and through
      the first reply whose text the progress line cannot slice, but no
      further. */
  function ReadReplies(recs: seq<Py<CommentRecord>>): (r: seq<CommentRecord>)
    ensures |r| <= |recs|
  {
    if |recs| == 0 then []
    else
      match recs[0]
      case Raised => []
      case Ok(rec) => if !Sliceable(rec.text) then [rec] else [rec] + ReadReplies(recs[1..])
  }

  /** Each reply `ReadReplies` returns is the record at its position. */
  lemma {:induction false} ReadRepliesRecords(recs: seq<Py<CommentRecord>>)
    ensures var r := ReadReplies(recs);
            forall i :: 0 <= i < |r| ==> recs[i] == Ok(r[i])
  {
    if |recs| > 0 && recs[0].Ok? && Sliceable(recs[0].value.text) {
      var rest := ReadReplies(recs[1..]);
      ReadRepliesRecords(recs[1..]);
      assert ReadReplies(recs) == [recs[0].value] + rest;
      assert forall i :: 1 <= i < |recs| ==> recs[i] == recs[1..][i - 1];
    }
  }

  /** `ReadReplies` stops where the tree loop stops on its own: every reply
      but the last has a sliceable text, and when records remain, the next
      one could not be built or the last text was not sliceable. */
  lemma {:induction false} ReadRepliesStops(recs: seq<Py<CommentRecord>>)
    ensures var r := ReadReplies(recs);
            && (forall i :: 0 <= i < |r| - 1 ==> Sliceable(r[i].text))
            && (|r| < |recs| ==> recs[|r|].Raised? || (|r| > 0 && !Sliceable(r[|r| - 1].text)))
  {
    if |recs| > 0 && recs[0].Ok? && Sliceable(recs[0].value.text) {
      var rest := ReadReplies(recs[1..]);
      ReadRepliesStops(recs[1..]);
      var r := [recs[0].value] + rest;
      assert ReadReplies(recs) == r;
      assert forall i :: 1 <= i < |r| ==> r[i] == rest[i - 1];
      if |r| < |recs| {
        assert recs[|r|] == recs[1..][|rest|];
      }
    }
  }

  /** The loop of `_get_child_comments_for_tree` over one page: stop at the
      budget; an exception ends the loop but keeps what was read, including
      a reply whose text the progress line failed to slice. */
  function TreeReplyItems(items: seq<Json>, acc: seq<CommentRecord>, budget: int,
                          mediaId: string): (r: seq<CommentRecord>)
    ensures acc <= r && |r| <= Max(|acc|, budget)
    ensures AllReplies(acc, mediaId) ==> AllReplies(r, mediaId)
  {
    if |items| == 0 || |acc| >= budget then acc
    else
      match ReplyRecord(items[0], mediaId)
      case Raised => acc
      case Ok(rec) =>
        if !Sliceable(rec.text) then acc + [rec]
        else TreeReplyItems(items[1..], acc + [rec], budget, mediaId)
  }

  /** What the tree loop returns is what was there, then the page's
      readable replies cut at the budget. */
  lemma {:induction false} TreeReplyItemsReads(items: seq<Json>, acc: seq<CommentRecord>, budget: int,
                                               mediaId: string)
    ensures TreeReplyItems(items, acc, budget, mediaId) ==
              acc + Take(ReadReplies(ReplyRecords(items, mediaId)), budget - |acc|)
    decreases |items|
  {
    var recs := ReplyRecords(items, mediaId);
    if |items| == 0 || |acc| >= budget {
      assert acc + [] == acc;
    } else {
      assert recs == [ReplyRecord(items[0], mediaId)] + ReplyRecords(items[1..], mediaId);
      assert recs[1..] == ReplyRecords(items[1..], mediaId);
      match ReplyRecord(items[0], mediaId)
      case Raised =>
        assert acc + [] == acc;
      case Ok(rec) =>
        var rest := ReadReplies(recs[1..]);
        if Sliceable(rec.text) {
          assert ReadReplies(recs) == [rec] + rest;
          assert TreeReplyItems(items, acc, budget, mediaId) == TreeReplyItems(items[1..], acc + [rec], budget, mediaId);
          var tail := Take(rest, budget - |acc| - 1);
          assert TreeReplyItems(items[1..], acc + [rec], budget, mediaId) == acc + [rec] + tail by {
            TreeReplyItemsReads(items[1..], acc + [rec], budget, mediaId);
          }
          assert Take(ReadReplies(recs), budget - |acc|) == [rec] + tail by {
            TakeCons(rec, rest, budget - |acc|);
          }
          AppendAssoc(acc, [rec], tail);
        } else {
          assert ReadReplies(recs) == [rec];
          assert TreeReplyItems(items, acc, budget, mediaId) == acc + [rec];
        }
    }
  }

  /** `_get_child_comments_for_tree`: a single page of replies, the page's
      first readable replies up to the budget. */
  function TreeReplies(mediaId: string, pk: Json, budget: int, net: Net): (r: (seq<CommentRecord>, Net))
    ensures |r.0| <= Max(0, budget)
    ensures AllReplies(r.0, mediaId)
    ensures Advances(net, r.1)
    ensures forall i :: |net.sent| <= i < |r.1.sent| ==>
              r.1.sent[i] == Request(TreeChildComments(mediaId, pk), None)
  {
    var (data, net1) := ApiRequest(Request(TreeChildComments(mediaId, pk), None), net);
    if data.None? || !Truthy(data.value) then ([], net1)
    else
      match ChildItems(data.value)
      case Raised => ([], net1)
      case Ok(items) =>
        (TreeReplyItems(items, [], budget, mediaId), net1)
  }

  /** The tree view's replies of a parent are the first readable replies of
      the one page it asks for, cut at the budget. */
  lemma TreeRepliesContent(mediaId: string, pk: Json, budget: int, net: Net)
    ensures var r := TreeReplies(mediaId, pk, budget, net);
            var (d, net1) := ApiRequest(Request(TreeChildComments(mediaId, pk), None), net);
            && r.1 == net1
            && r.0 == if d.Some? && Truthy(d.value) && ChildItems(d.value).Ok?
                      then Take(ReadReplies(ReplyRecords(ChildItems(d.value).value, mediaId)), budget)
                      else []
  {
    var (data, net1) := ApiRequest(Request(TreeChildComments(mediaId, pk), None), net);
    if data.Some? && Truthy(data.value) && ChildItems(data.value).Ok? {
      var items := ChildItems(data.value).value;
      TreeReplyItemsReads(items, [], budget, mediaId);
      var t := Take(ReadReplies(ReplyRecords(items, mediaId)), budget);
      assert [] + t == t;
    }
  }

  /** A page's records, all of them, or an exception as soon as one of
      them could not be built. */
  function ReadAll(recs: seq<Py<CommentRecord>>): (r: Py<seq<CommentRecord>>)
    ensures r.Ok? ==> |r.value| == |recs|
  {
    if |recs| == 0 then Ok([])
    else
      var rec :- recs[0];
      var rs :- ReadAll(recs[1..]);
      Ok([rec] + rs)
  }

  /** `ReadAll` succeeds exactly when every record was built, and then holds
      them in order. */
  lemma {:induction false} ReadAllSpec(recs: seq<Py<CommentRecord>>)
    ensures ReadAll(recs).Ok? <==> forall i :: 0 <= i < |recs| ==> recs[i].Ok?
    ensures ReadAll(recs).Ok? ==> forall i :: 0 <= i < |recs| ==> recs[i] == Ok(ReadAll(recs).value[i])
  {
    if |recs| > 0 {
      var ys := recs[1..];
      ReadAllSpec(ys);
      assert forall i :: 1 <= i < |recs| ==> recs[i] == ys[i - 1];
      if recs[0].Ok? && ReadAll(ys).Ok? {
        var rs := ReadAll(ys).value;
        assert ReadAll(recs) == Ok([recs[0].value] + rs);
        assert forall i :: 1 <= i < |recs| ==> ([recs[0].value] + rs)[i] == rs[i - 1];
      } else if recs[0].Ok? {
        var j :| 0 <= j < |ys| && ys[j].Raised?;
        assert recs[j + 1].Raised?;
      }
    }
  }

  lemma ReadAllCons(x: Py<CommentRecord>, ys: seq<Py<CommentRecord>>)
    ensures ReadAll([x] + ys) ==
              match x
              case Raised => Raised
              case Ok(rec) => (match ReadAll(ys) case Raised => Raised case Ok(rs) => Ok([rec] + rs))
  {
    assert ([x] + ys)[0] == x && ([x] + ys)[1..] == ys;
  }

  /** `_process_child_comments_page`: append replies until the budget; an
      item whose record cannot be built raises. */
  function PagedReplyItems(items: seq<Json>, acc: seq<CommentRecord>, budget: int,
                           mediaId: string): (r: Py<seq<CommentRecord>>)
    ensures r.Ok? ==> acc <= r.value && |r.value| <= Max(|acc|, budget)
    ensures r.Ok? && AllReplies(acc, mediaId) ==> AllReplies(r.value, mediaId)
  {
    if |items| == 0 || |acc| >= budget then Ok(acc)
    else
      var rec :- ReplyRecord(items[0], mediaId);
      PagedReplyItems(items[1..], acc + [rec], budget, mediaId)
  }

  /** The paged loop returns the replies so far followed by the records of
      all of the page's first `budget - |acc|` items, and raises exactly
      when one of those records could not be built. */
  lemma {:induction false} PagedReplyItemsReads(items: seq<Json>, acc: seq<CommentRecord>, budget: int,
                                                mediaId: string)
    ensures PagedReplyItems(items, acc, budget, mediaId) ==
              match ReadAll(Take(ReplyRecords(items, mediaId), budget - |acc|))
              case Raised => Raised
              case Ok(rs) => Ok(acc + rs)
    decreases |items|
  {
    if |items| == 0 || |acc| >= budget {
      assert acc + [] == acc;
    } else {
      var n := budget - |acc|;
      var x, ys := ReplyRecord(items[0], mediaId), ReplyRecords(items[1..], mediaId);
      assert Take(ReplyRecords(items, mediaId), n) == [x] + Take(ys, n - 1) by {
        assert ReplyRecords(items, mediaId) == [x] + ys;
        TakeCons(x, ys, n);
      }
      ReadAllCons(x, Take(ys, n - 1));
      match x
      case Raised =>
        assert PagedReplyItems(items, acc, budget, mediaId) == Raised;
      case Ok(rec) =>
        assert PagedReplyItems(items, acc, budget, mediaId) == PagedReplyItems(items[1..], acc + [rec], budget, mediaId);
        PagedReplyItemsReads(items[1..], acc + [rec], budget, mediaId);
        match ReadAll(Take(ys, n - 1))
        case Raised =>
        case Ok(rs) =>
          AppendAssoc(acc, [rec], rs);
    }
  }

  /** One page of replies in the twin: the replies so far followed by the
      page's first `budget - |acc|` replies, and the page's `next_min_id`. */
  function ReplyPage(data: Json, acc: seq<CommentRecord>, budget: int,
                     mediaId: string): (r: Py<(seq<CommentRecord>, Json)>)
    ensures r.Ok? <==> && ChildItems(data).Ok?
                       && ReadAll(Take(ReplyRecords(ChildItems(data).value, mediaId), budget - |acc|)).Ok?
                       && Get(data, "next_min_id").Ok?
    ensures r.Ok? ==> r.value.0 == acc + ReadAll(Take(ReplyRecords(ChildItems(data).value, mediaId), budget - |acc|)).value
    ensures r.Ok? ==> Get(data, "next_min_id") == Ok(r.value.1)
    ensures r.Ok? ==> |r.value.0| <= Max(|acc|, budget)
    ensures r.Ok? && AllReplies(acc, mediaId) ==> AllReplies(r.value.0, mediaId)
  {
    var items :- ChildItems(data);
    PagedReplyItemsReads(items, acc, budget, mediaId);
    var acc1 :- PagedReplyItems(items, acc, budget, mediaId);
    var next :- Get(data, "next_min_id");
    Ok((acc1, next))
  }

  /** The `while next_cursor and len(child_list) < max_count` loop of
      `_get_child_comments_list`. */
  function ReplyPages(mediaId: string, pk: Json, budget: int, cursor: Json,
                      acc: seq<CommentRecord>, net: Net): (r: (Py<seq<CommentRecord>>, Net))
    decreases |net.tape|
    ensures r.0.Ok? ==> acc <= r.0.value && |r.0.value| <= Max(|acc|, budget)
    ensures r.0.Ok? && AllReplies(acc, mediaId) ==> AllReplies(r.0.value, mediaId)
    ensures Advances(net, r.1)
    ensures forall i :: |net.sent| <= i < |r.1.sent| ==>
              r.1.sent[i].endpoint == ChildComments(mediaId, pk)
    ensures !(Truthy(cursor) && |acc| < budget) ==> r == (Ok(acc), net)
    ensures Truthy(cursor) && |acc| < budget ==>
              |r.1.sent| > |net.sent| && r.1.sent[|net.sent|] == Request(ChildComments(mediaId, pk), Some(cursor))
  {
    if !(Truthy(cursor) && |acc| < budget) then (Ok(acc), net)
    else
      var (data, net1) := ApiRequest(Request(ChildComments(mediaId, pk), Some(cursor)), net);
      if data.None? || !Truthy(data.value) then (Ok(acc), net1)
      else
        match ReplyPage(data.value, acc, budget, mediaId)
        case Raised => (Raised, net1)
        case Ok((acc1, next)) =>
          var r := ReplyPages(mediaId, pk, budget, next, acc1, net1);
          AdvancesTransitive(net, net1, r.1);
          r
  }

  /** `_get_child_comments_list`: every page of replies; an exception
      anywhere drops them all. */
  function PagedReplies(mediaId: string, pk: Json, budget: int, net: Net): (r: (seq<CommentRecord>, Net))
    ensures |r.0| <= Max(0, budget)
    ensures AllReplies(r.0, mediaId)
    ensures Advances(net, r.1)
    ensures forall i :: |net.sent| <= i < |r.1.sent| ==>
              r.1.sent[i].endpoint == ChildComments(mediaId, pk)
  {
    var (data, net1) := ApiRequest(Request(ChildComments(mediaId, pk), None), net);
    if data.None? || !Truthy(data.value) then ([], net1)
    else
      match ReplyPage(data.value, [], budget, mediaId)
      case Raised => ([], net1)
      case Ok((acc, next)) =>
        var (replies, net2) := ReplyPages(mediaId, pk, budget, next, acc, net1);
        AdvancesTransitive(net, net1, net2);
        (match replies case Ok(rs) => rs case Raised => [], net2)
  }

  /** The paginated replies start with the first page's replies and, when
      that page has no further cursor, are exactly them; a missing, empty or
      unreadable first page gives none. An exception on a later page drops
      everything, first page included. */
  lemma PagedRepliesFirstPage(mediaId: string, pk: Json, budget: int, net: Net)
    ensures var r := PagedReplies(mediaId, pk, budget, net);
            var d := ApiRequest(Request(ChildComments(mediaId, pk), None), net).0;
            && |r.1.sent| > |net.sent| && r.1.sent[|net.sent|] == Request(ChildComments(mediaId, pk), None)
            && (d.None? || !Truthy(d.value) || ReplyPage(d.value, [], budget, mediaId).Raised? ==> r.0 == [])
            && (d.Some? && Truthy(d.value) && ReplyPage(d.value, [], budget, mediaId).Ok? ==>
                  var (first, next) := ReplyPage(d.value, [], budget, mediaId).value;
                  && (r.0 == [] || first <= r.0)
                  && (!Truthy(next) ==> r.0 == first))
  {
    var (data, net1) := ApiRequest(Request(ChildComments(mediaId, pk), None), net);
    var r := PagedReplies(mediaId, pk, budget, net);
    assert Advances(net1, r.1);
  }

  function FetchReplies(style: Style, mediaId: string, pk: Json, budget: int, net: Net): (r: (seq<CommentRecord>, Net))
    ensures |r.0| <= Max(0, budget)
    ensures AllReplies(r.0, mediaId)
    ensures Advances(net, r.1)
    ensures forall i :: |net.sent| <= i < |r.1.sent| ==>
              r.1.sent[i].endpoint == ReplyEndpoint(style, mediaId, pk)
  {
    match style
    case Tree => TreeReplies(mediaId, pk, budget, net)
    case Paged => PagedReplies(mediaId, pk, budget, net)
  }

  // ---------------------------------------------------------------------
  // Top-level comments

  /** Every request in `sent` from position `from` on asks for the replies of
      a parent whose `pk` is in `pks`. */
  predicate RepliesOnly(sent: seq<Request>, from: nat, style: Style, mediaId: string, pks: set<Json>) {
    forall i :: from <= i < |sent| ==> ReplyRequest(sent[i], style, mediaId, pks)
  }

  /** Every request in `sent` from position `from` on asks for a page of
      top-level comments of the post, or for the replies of a parent whose
      `pk` is in `pks`. */
  predicate CrawlOnly(sent: seq<Request>, from: nat, style: Style, mediaId: string, pks: set<Json>) {
    forall i :: from <= i < |sent| ==>
      sent[i].endpoint == Comments(mediaId) || ReplyRequest(sent[i], style, mediaId, pks)
  }

  lemma RepliesOnlyJoin(s1: seq<Request>, s2: seq<Request>, from: nat, style: Style,
                        mediaId: string, pks1: set<Json>, pks2: set<Json>)
    requires from <= |s1| && s1 <= s2 && pks1 <= pks2
    requires RepliesOnly(s1, from, style, mediaId, pks1)
    requires RepliesOnly(s2, |s1|, style, mediaId, pks2)
    ensures RepliesOnly(s2, from, style, mediaId, pks2)
  {
    forall i | from <= i < |s2|
      ensures ReplyRequest(s2[i], style, mediaId, pks2)
    {
      if i < |s1| {
        assert s2[i] == s1[i];
      }
    }
  }

  lemma CrawlOnlyJoin(s1: seq<Request>, s2: seq<Request>, from: nat, style: Style,
                      mediaId: string, pks1: set<Json>, pks2: set<Json>)
    requires from <= |s1| && s1 <= s2 && pks1 <= pks2
    requires CrawlOnly(s1, from, style, mediaId, pks1)
    requires CrawlOnly(s2, |s1|, style, mediaId, pks2)
    ensures CrawlOnly(s2, from, style, mediaId, pks2)
  {
    forall i | from <= i < |s2|
      ensures s2[i].endpoint == Comments(mediaId) || ReplyRequest(s2[i], style, mediaId, pks2)
    {
      if i < |s1| {
        assert s2[i] == s1[i];
      }
    }
  }

  lemma RepliesAreCrawl(sent: seq<Request>, from: nat, style: Style, mediaId: string, pks: set<Json>)
    requires RepliesOnly(sent, from, style, mediaId, pks)
    ensures CrawlOnly(sent, from, style, mediaId, pks)
  {
  }

  lemma ReplyPksGrow(ts: seq<Thread>, ts': seq<Thread>)
    requires ts <= ts'
    ensures ReplyPks(ts) <= ReplyPks(ts')
  {
    forall t | t in ts
      ensures t in ts'
    {
      var i :| 0 <= i < |ts| && ts[i] == t;
      assert ts'[i] == t;
    }
  }

  lemma ShapedSnoc(ts: seq<Thread>, t: Thread, mediaId: string)
    ensures AllShaped(ts, mediaId) && ThreadShaped(t, mediaId) ==> AllShaped(ts + [t], mediaId)
  {
  }

  /** The threads built so far, whether an exception escaped, and the network. */
  datatype Run = Run(threads: seq<Thread>, raised: bool, net: Net)

  /** Whether a parent's replies are fetched, and the fetch itself:
      `child_count > 0` raises on a count that is not a number; otherwise the
      replies are requested only when the count is positive, the budget is
      positive and the `pk` is truthy. */
  function ParentReplies(style: Style, parent: CommentRecord, mediaId: string,
                         budget: int, net: Net): (r: (Py<seq<CommentRecord>>, Net))
    ensures r.0.Raised? <==> Positive(parent.childCount).Raised?
    ensures r.0.Ok? ==> |r.0.value| <= Max(0, budget) && AllReplies(r.0.value, mediaId)
    ensures r.0.Ok? && |r.0.value| > 0 ==> FetchesReplies(parent)
    ensures Advances(net, r.1)
    ensures |r.1.sent| > |net.sent| ==> FetchesReplies(parent) && budget > 0
    ensures forall i :: |net.sent| <= i < |r.1.sent| ==>
              r.1.sent[i].endpoint == ReplyEndpoint(style, mediaId, parent.pk)
  {
    match Positive(parent.childCount)
    case Raised => (Raised, net)
    case Ok(positive) =>
      if positive && budget > 0 && Truthy(parent.pk) then
        var (replies, net1) := FetchReplies(style, mediaId, parent.pk, budget, net);
        (Ok(replies), net1)
      else (Ok([]), net)
  }

  /** A parent's replies are fetched exactly when its count is positive,
      the budget is positive and its `pk` is truthy; otherwise it has none
      and nothing is sent. */
  lemma ParentRepliesFetch(style: Style, parent: CommentRecord, mediaId: string, budget: int, net: Net)
    ensures var r := ParentReplies(style, parent, mediaId, budget, net);
            var f := FetchReplies(style, mediaId, parent.pk, budget, net);
            && (FetchesReplies(parent) && budget > 0 ==> r == (Ok(f.0), f.1))
            && (Positive(parent.childCount).Ok? && !(FetchesReplies(parent) && budget > 0) ==> r == (Ok([]), net))
  {
  }

  lemma ParentRepliesOnly(sent: seq<Request>, from: nat, style: Style, mediaId: string,
                          pk: Json, pks: set<Json>)
    requires forall i :: from <= i < |sent| ==> sent[i].endpoint == ReplyEndpoint(style, mediaId, pk)
    requires |sent| > from ==> pk in pks
    ensures RepliesOnly(sent, from, style, mediaId, pks)
  {
  }

  /** A readable top-level comment and its replies: the tree view first
      slices the text for its progress line, which raises on a text it cannot
      slice; then the replies are fetched with `budget`. After an exception
      the parent stays, without replies. The second component says whether an
      exception escaped. */
  function ParentThread(style: Style, parent: CommentRecord, mediaId: string,
                        budget: int, net: Net): (r: (Thread, bool, Net))
    ensures r.0.parent == parent
    ensures |r.0.replies| <= Max(0, budget)
    ensures AllReplies(r.0.replies, mediaId) && (|r.0.replies| > 0 ==> FetchesReplies(parent))
    ensures Advances(net, r.2)
    ensures |r.2.sent| > |net.sent| ==> FetchesReplies(parent)
    ensures forall i :: |net.sent| <= i < |r.2.sent| ==>
              r.2.sent[i].endpoint == ReplyEndpoint(style, mediaId, parent.pk)
  {
    if style == Tree && !Sliceable(parent.text) then (Thread(parent, []), true, net)
    else
      var (replies, net1) := ParentReplies(style, parent, mediaId, budget, net);
      match replies
      case Raised => (Thread(parent, []), true, net1)
      case Ok(rs) => (Thread(parent, rs), false, net1)
  }

  /** The replies a readable top-level comment gets: those `ParentReplies`
      fetches, unless the progress line cannot slice the text (tree view) or
      the reply count is not a number, which raises and leaves none. */
  lemma ParentThreadReplies(style: Style, parent: CommentRecord, mediaId: string, budget: int, net: Net)
    ensures var r := ParentThread(style, parent, mediaId, budget, net);
            var pp := ParentReplies(style, parent, mediaId, budget, net);
            && (r.1 <==> (style == Tree && !Sliceable(parent.text)) || pp.0.Raised?)
            && (r.1 ==> r.0.replies == [])
            && (!r.1 ==> r.0.replies == pp.0.value && r.2 == pp.1)
  {
  }

  /** One top-level comment, while there is room for it: append the parent;
      then, if its reply count is positive, there is still room and it has a
      `pk`, fetch its replies with the remaining budget
      `cap - len(comments_list)` and append them right after it. */
  function CommentItem(style: Style, item: Json, threads: seq<Thread>,
                       mediaId: string, cap: int, net: Net): (r: Run)
    requires |Flatten(threads)| < cap
    ensures ParentRecord(item, mediaId).Raised? ==> r == Run(threads, true, net)
    ensures ParentRecord(item, mediaId).Ok? ==>
              |r.threads| == |threads| + 1 && r.threads[|threads|].parent == ParentRecord(item, mediaId).value
    ensures threads <= r.threads
    ensures |Flatten(r.threads)| <= cap
    ensures AllShaped(threads, mediaId) ==> AllShaped(r.threads, mediaId)
    ensures Advances(net, r.net)
    ensures RepliesOnly(r.net.sent, |net.sent|, style, mediaId, ReplyPks(r.threads))
  {
    match ParentRecord(item, mediaId)
    case Raised => Run(threads, true, net)
    case Ok(parent) =>
      // `max_comments - len(comments_list)` once the parent is in the list
      var (t, raised, net1) := ParentThread(style, parent, mediaId, cap - |Flatten(threads)| - 1, net);
      FlattenSnoc(threads, t);
      ShapedSnoc(threads, t, mediaId);
      assert |net1.sent| > |net.sent| ==> parent.pk in ReplyPks(threads + [t]) by {
        assert (threads + [t])[|threads|] == t;
      }
      ParentRepliesOnly(net1.sent, |net.sent|, style, mediaId, parent.pk, ReplyPks(threads + [t]));
      Run(threads + [t], raised, net1)
  }

  /** The thread of a readable top-level comment holds the replies fetched
      with the budget left after the parent; it raises exactly when the
      progress line cannot slice the text (tree view) or the reply count is
      not a number, and then holds no replies. */
  lemma CommentItemReplies(style: Style, item: Json, parent: CommentRecord, threads: seq<Thread>,
                           mediaId: string, cap: int, net: Net)
    requires |Flatten(threads)| < cap
    requires ParentRecord(item, mediaId) == Ok(parent)
    ensures var r := CommentItem(style, item, threads, mediaId, cap, net);
            var pp := ParentReplies(style, parent, mediaId, cap - |Flatten(threads)| - 1, net);
            && (r.raised <==> (style == Tree && !Sliceable(parent.text)) || pp.0.Raised?)
            && (r.raised ==> r.threads[|threads|].replies == [])
            && (!r.raised ==> r.threads[|threads|].replies == pp.0.value && r.net == pp.1)
  {
    var budget := cap - |Flatten(threads)| - 1;
    var pt := ParentThread(style, parent, mediaId, budget, net);
    var pp := ParentReplies(style, parent, mediaId, budget, net);
    ParentThreadReplies(style, parent, mediaId, budget, net);
    var r := CommentItem(style, item, threads, mediaId, cap, net);
    assert r == Run(threads + [pt.0], pt.1, pt.2);
    assert r.threads[|threads|] == pt.0;
    assert !r.raised ==> r.threads[|threads|].replies == pp.0.value && r.net == pp.1;
  }

  lemma {:induction false} ReplyRecordsCons(x: Json, xs: seq<Json>, mediaId: string)
    ensures ReplyRecords([x] + xs, mediaId) == [ReplyRecord(x, mediaId)] + ReplyRecords(xs, mediaId)
  {
    assert ([x] + xs)[1..] == xs;
  }

  lemma {:induction false} ReadRepliesCons(rec: CommentRecord, rest: seq<Py<CommentRecord>>)
    requires Sliceable(rec.text)
    ensures ReadReplies([Ok(rec)] + rest) == [rec] + ReadReplies(rest)
  {
    assert ([Ok(rec)] + rest)[1..] == rest;
  }

  /** The tree view's reply page for a parent, in a worked instance: a page
      listing three readable replies gives those three replies, in order,
      after one request, when the budget allows three. */
  lemma TreeRepliesExample(c1: Json, c2: Json, c3: Json, r1: CommentRecord, r2: CommentRecord,
                           r3: CommentRecord, mediaId: string, pk: Json, budget: int,
                           ct: string, later: seq<Raw>, sent: seq<Request>)
    requires ReplyRecord(c1, mediaId) == Ok(r1) && r1.text.JStr?
    requires ReplyRecord(c2, mediaId) == Ok(r2) && r2.text.JStr?
    requires ReplyRecord(c3, mediaId) == Ok(r3) && r3.text.JStr?
    requires budget >= 3 && !IsHtml(ct)
    ensures var page := JObj([("child_comments", JArr([c1, c2, c3]))]);
            TreeReplies(mediaId, pk, budget, Net([Response(ct, 200, Some(page))] + later, sent)) ==
              ([r1, r2, r3], Net(later, sent + [Request(TreeChildComments(mediaId, pk), None)]))
  {
    var page := JObj([("child_comments", JArr([c1, c2, c3]))]);
    var net := Net([Response(ct, 200, Some(page))] + later, sent);
    var req := Request(TreeChildComments(mediaId, pk), None);
    assert ApiRequest(req, net) == (Some(page), Net(later, sent + [req])) by {
      assert Classify(net.tape[0]) == Payload(Some(page));
      assert net.tape[1..] == later;
    }
    var items := [c1, c2, c3];
    assert ChildItems(page) == Ok(items) by {
      LookupFirst("child_comments", JArr(items), []);
    }
    var recs := ReplyRecords(items, mediaId);
    assert recs == [Ok(r1), Ok(r2), Ok(r3)] by {
      ReplyRecordsCons(c1, [c2, c3], mediaId);
      ReplyRecordsCons(c2, [c3], mediaId);
      ReplyRecordsCons(c3, [], mediaId);
      assert [c1] + [c2, c3] == items && [c2] + [c3] == [c2, c3] && [c3] + [] == [c3];
    }
    assert ReadReplies(recs) == [r1, r2, r3] by {
      ReadRepliesCons(r1, [Ok(r2), Ok(r3)]);
      ReadRepliesCons(r2, [Ok(r3)]);
      ReadRepliesCons(r3, []);
      assert [Ok(r1)] + [Ok(r2), Ok(r3)] == recs;
      assert [Ok(r2)] + [Ok(r3)] == [Ok(r2), Ok(r3)] && [Ok(r3)] + [] == [Ok(r3)];
    }
    TreeRepliesContent(mediaId, pk, budget, net);
  }

  /** A worked instance of the tree view: a top-level comment with
      `child_comment_count` 3, whose one reply page lists three replies,
      comes out as the parent followed by those three replies, in order,
      after a single request for that parent's replies. */
  lemma TreeThreadExample(item: Json, parent: CommentRecord, c1: Json, c2: Json, c3: Json,
                          r1: CommentRecord, r2: CommentRecord, r3: CommentRecord,
                          mediaId: string, cap: int, ct: string, later: seq<Raw>, sent: seq<Request>)
    requires ParentRecord(item, mediaId) == Ok(parent)
    requires parent.childCount == JNum(3) && Truthy(parent.pk) && parent.text.JStr?
    requires ReplyRecord(c1, mediaId) == Ok(r1) && r1.text.JStr?
    requires ReplyRecord(c2, mediaId) == Ok(r2) && r2.text.JStr?
    requires ReplyRecord(c3, mediaId) == Ok(r3) && r3.text.JStr?
    requires cap >= 4 && !IsHtml(ct)
    ensures var page := JObj([("child_comments", JArr([c1, c2, c3]))]);
            var net := Net([Response(ct, 200, Some(page))] + later, sent);
            var r := CommentItem(Tree, item, [], mediaId, cap, net);
            && !r.raised
            && Flatten(r.threads) == [parent, r1, r2, r3]
            && r.net == Net(later, sent + [Request(TreeChildComments(mediaId, parent.pk), None)])
  {
    var page := JObj([("child_comments", JArr([c1, c2, c3]))]);
    var net := Net([Response(ct, 200, Some(page))] + later, sent);
    var budget := cap - |Flatten([])| - 1;
    var net1 := Net(later, sent + [Request(TreeChildComments(mediaId, parent.pk), None)]);
    assert FetchReplies(Tree, mediaId, parent.pk, budget, net) == ([r1, r2, r3], net1) by {
      TreeRepliesExample(c1, c2, c3, r1, r2, r3, mediaId, parent.pk, budget, ct, later, sent);
    }
    ParentRepliesFetch(Tree, parent, mediaId, budget, net);
    CommentItemReplies(Tree, item, parent, [], mediaId, cap, net);
    var r := CommentItem(Tree, item, [], mediaId, cap, net);
    assert r.threads == [Thread(parent, [r1, r2, r3])];
    assert Flatten(r.threads) == [parent] + [r1, r2, r3] + Flatten([]);
  }

  /** `_process_comments_page` (and the same loop inlined in the tree view):
      the comments of one page, in order, until the cap. */
  function CommentItems(style: Style, items: seq<Json>, threads: seq<Thread>,
                        mediaId: string, cap: int, net: Net): (r: Run)
    decreases |items|
    ensures threads <= r.threads
    ensures |Flatten(r.threads)| <= Max(|Flatten(threads)|, cap)
    ensures AllShaped(threads, mediaId) ==> AllShaped(r.threads, mediaId)
    ensures Advances(net, r.net)
    ensures RepliesOnly(r.net.sent, |net.sent|, style, mediaId, ReplyPks(r.threads))
    ensures ParentsOf(items, r.threads[|threads|..], mediaId)
    ensures !r.raised && |r.threads| < |threads| + |items| ==> |Flatten(r.threads)| >= cap
  {
    if |items| == 0 || |Flatten(threads)| >= cap then Run(threads, false, net)
    else
      var s := CommentItem(style, items[0], threads, mediaId, cap, net);
      if s.raised then s
      else
        var r := CommentItems(style, items[1..], s.threads, mediaId, cap, s.net);
        assert |Flatten(r.threads)| <= cap;
        AdvancesTransitive(net, s.net, r.net);
        ReplyPksGrow(s.threads, r.threads);
        RepliesOnlyJoin(s.net.sent, r.net.sent, |net.sent|, style, mediaId,
                        ReplyPks(s.threads), ReplyPks(r.threads));
        ParentsStep(items, threads, s.threads, r.threads, mediaId);
        r
  }

  /** One step of `CommentItems`: a thread for the first item, then
      threads for the rest. */
  lemma ParentsStep(items: seq<Json>, threads: seq<Thread>, mid: seq<Thread>, ts: seq<Thread>,
                    mediaId: string)
    requires |items| > 0 && |mid| == |threads| + 1 && threads <= mid <= ts
    requires ParentRecord(items[0], mediaId) == Ok(mid[|threads|].parent)
    requires ParentsOf(items[1..], ts[|mid|..], mediaId)
    ensures ParentsOf(items, ts[|threads|..], mediaId)
  {
    var rest := ts[|threads|..];
    assert rest[0] == mid[|threads|];
    assert rest[1..] == ts[|mid|..];
  }

  /** `data.get("comments", [])`, iterated. */
  function PageComments(data: Json): (r: Py<seq<Json>>)
    ensures r.Ok? ==> data.JObj?
  {
    var comments :- GetOr(data, "comments", EmptyArr);
    Iter(comments)
  }

  /** The `while next_cursor and len(comments_list) < max_comments` loop. */
  function CommentPages(style: Style, mediaId: string, cap: int, cursor: Json,
                        threads: seq<Thread>, net: Net): (r: Run)
    decreases |net.tape|, 0
    ensures threads <= r.threads
    ensures |Flatten(r.threads)| <= Max(|Flatten(threads)|, cap)
    ensures AllShaped(threads, mediaId) ==> AllShaped(r.threads, mediaId)
    ensures Advances(net, r.net)
    ensures CrawlOnly(r.net.sent, |net.sent|, style, mediaId, ReplyPks(r.threads))
  {
    if !(Truthy(cursor) && |Flatten(threads)| < cap) then Run(threads, false, net)
    else
      var (data, net1) := ApiRequest(Request(Comments(mediaId), Some(cursor)), net);
      if data.None? || !Truthy(data.value) then Run(threads, false, net1)
      else
        var r := PageThenRest(style, mediaId, cap, data.value, threads, net1);
        AdvancesTransitive(net, net1, r.net);
        CrawlOnlyJoin(net1.sent, r.net.sent, |net.sent|, style, mediaId, {}, ReplyPks(r.threads));
        r
  }

  /** Once the cap is reached, the page loop sends nothing and adds nothing. */
  lemma CommentPagesFull(style: Style, mediaId: string, cap: int, cursor: Json,
                         threads: seq<Thread>, net: Net)
    requires |Flatten(threads)| >= cap
    ensures CommentPages(style, mediaId, cap, cursor, threads, net) == Run(threads, false, net)
  {
  }

  /** A page of top-level comments already received: its comments in order,
      then, unless something raised, the pages after its `next_min_id`. */
  function PageThenRest(style: Style, mediaId: string, cap: int, data: Json,
                        threads: seq<Thread>, net: Net): (r: Run)
    decreases |net.tape|, 1
    ensures threads <= r.threads
    ensures |Flatten(r.threads)| <= Max(|Flatten(threads)|, cap)
    ensures AllShaped(threads, mediaId) ==> AllShaped(r.threads, mediaId)
    ensures Advances(net, r.net)
    ensures CrawlOnly(r.net.sent, |net.sent|, style, mediaId, ReplyPks(r.threads))
  {
    match PageComments(data)
    case Raised => Run(threads, true, net)
    case Ok(items) =>
      var run := CommentItems(style, items, threads, mediaId, cap, net);
      RepliesAreCrawl(run.net.sent, |net.sent|, style, mediaId, ReplyPks(run.threads));
      if run.raised then run
      else
        match Get(data, "next_min_id")
        case Raised => Run(run.threads, true, run.net)
        case Ok(next) =>
          var r := CommentPages(style, mediaId, cap, next, run.threads, run.net);
          AdvancesTransitive(net, run.net, r.net);
          ReplyPksGrow(run.threads, r.threads);
          CrawlOnlyJoin(run.net.sent, r.net.sent, |net.sent|, style, mediaId,
                        ReplyPks(run.threads), ReplyPks(r.threads));
          r
  }

  /** The threads after a received page begin with one thread per comment
      of that page, in order, and are short of the page only when something
      raised or the cap was reached. */
  lemma PageThenRestParents(style: Style, mediaId: string, cap: int, data: Json,
                            threads: seq<Thread>, net: Net)
    ensures var r := PageThenRest(style, mediaId, cap, data, threads, net);
            && (PageComments(data).Raised? ==> r == Run(threads, true, net))
            && (PageComments(data).Ok? ==>
                  var items := PageComments(data).value;
                  && LeadingParents(items, r.threads[|threads|..], mediaId)
                  && (!r.raised && |r.threads| < |threads| + |items| ==> |Flatten(r.threads)| >= cap))
  {
    match PageComments(data)
    case Raised =>
    case Ok(items) =>
      var run := CommentItems(style, items, threads, mediaId, cap, net);
      var r := PageThenRest(style, mediaId, cap, data, threads, net);
      var ts := run.threads[|threads|..];
      ParentsOfIndex(items, ts, mediaId);
      if !run.raised && |run.threads| < |threads| + |items| {
        match Get(data, "next_min_id")
        case Raised =>
        case Ok(next) =>
          CommentPagesFull(style, mediaId, cap, next, run.threads, run.net);
      }
      assert |r.threads| > |run.threads| ==> |ts| == |items|;
      forall i | 0 <= i < |r.threads| - |threads| && i < |items|
        ensures ParentRecord(items[i], mediaId) == Ok(r.threads[|threads|..][i].parent)
      {
        assert r.threads[|threads|..][i] == ts[i];
      }
  }

  /** The post banner the tree view prints from the first page: the caption's
      user, read through `.get`, which raises on a non-dict. It raises exactly
      when the page, a truthy caption or the caption's user is not a dict; a
      page without a caption prints no banner, and a user with a `username`
      prints that name. */
  function CaptionBanner(data: Json): (r: Py<Json>)
    ensures r.Raised? <==>
              || !data.JObj?
              || (var c := Lookup(data.fields, "caption");
                  && c.Some? && Truthy(c.value)
                  && (|| !c.value.JObj?
                      || (Lookup(c.value.fields, "user").Some? && !Lookup(c.value.fields, "user").value.JObj?)))
    ensures data.JObj? && Lookup(data.fields, "caption").None? ==> r == Ok(JNull)
    ensures data.JObj? && Lookup(data.fields, "caption").Some? ==>
              var c := Lookup(data.fields, "caption").value;
              Truthy(c) && c.JObj? && Lookup(c.fields, "user").Some? ==>
                var u := Lookup(c.fields, "user").value;
                u.JObj? && Lookup(u.fields, "username").Some? ==> r == Ok(Lookup(u.fields, "username").value)
  {
    var caption :- GetOr(data, "caption", EmptyObj);
    if !Truthy(caption) then Ok(JNull)
    else
      var user :- GetOr(caption, "user", EmptyObj);
      GetOr(user, "username", JStr("N/A"))
  }

  /** The shared body of both crawlers once the media id is settled: the
      first page, then the page loop. */
  function CrawlComments(style: Style, mediaId: string, cap: int, net: Net): (r: Run)
    ensures |Flatten(r.threads)| <= Max(0, cap)
    ensures AllShaped(r.threads, mediaId)
    ensures Advances(net, r.net)
    ensures CrawlOnly(r.net.sent, |net.sent|, style, mediaId, ReplyPks(r.threads))
  {
    var (data, net1) := ApiRequest(Request(Comments(mediaId), None), net);
    if data.None? || !Truthy(data.value) then Run([], false, net1)
    else if style == Tree && CaptionBanner(data.value).Raised? then Run([], true, net1)
    else
      var r := PageThenRest(style, mediaId, cap, data.value, [], net1);
      AdvancesTransitive(net, net1, r.net);
      CrawlOnlyJoin(net1.sent, r.net.sent, |net.sent|, style, mediaId, {}, ReplyPks(r.threads));
      r
  }

  /** A crawl asks first for the post's first page of comments; without
      one it has no threads, and with one its threads are that page's
      comments in order, short of the page only on an exception or at the
      cap. */
  lemma CrawlCommentsParents(style: Style, mediaId: string, cap: int, net: Net)
    ensures var r := CrawlComments(style, mediaId, cap, net);
            var d := ApiRequest(Request(Comments(mediaId), None), net).0;
            && |r.net.sent| > |net.sent| && r.net.sent[|net.sent|] == Request(Comments(mediaId), None)
            && (d.None? || !Truthy(d.value) ==> r.threads == [] && !r.raised)
            && (d.Some? && Truthy(d.value) && PageComments(d.value).Ok? ==>
                  var items := PageComments(d.value).value;
                  && LeadingParents(items, r.threads, mediaId)
                  && (!r.raised && |r.threads| < |items| ==> |Flatten(r.threads)| >= cap))
  {
    var (data, net1) := ApiRequest(Request(Comments(mediaId), None), net);
    if data.Some? && Truthy(data.value) && !(style == Tree && CaptionBanner(data.value).Raised?) {
      var r := PageThenRest(style, mediaId, cap, data.value, [], net1);
      assert CrawlComments(style, mediaId, cap, net) == r;
      PageThenRestParents(style, mediaId, cap, data.value, [], net1);
      assert r.threads[0..] == r.threads;
    }
  }

  function ResolveCap(maxComments: Option<int>): int {
    match maxComments
    case Some(n) => n
    case None => DefaultMaxComments
  }

  /** `get_post_comment_users(media_id, max_comments)`: the tree view. The
      id is stripped first; an empty one returns `[]` without a request. An
      exception anywhere discards everything collected. */
  function PostCommentUsers(mediaId: string, maxComments: Option<int>, net: Net): (r: (seq<CommentRecord>, Net))
    ensures |r.0| <= Max(0, ResolveCap(maxComments))
    ensures AllShaped(Regroup(r.0), Strip(mediaId))
    ensures Strip(mediaId) == "" ==> r == ([], net)
    ensures Advances(net, r.1)
  {
    var m := Strip(mediaId);
    if m == "" then ([], net)
    else
      var run := CrawlComments(Tree, m, ResolveCap(maxComments), net);
      ShapedLevelled(run.threads, m);
      RegroupFlatten(run.threads);
      (if run.raised then [] else Flatten(run.threads), run.net)
  }

  /** `_get_post_comments_list(media_id, max_comments)`: the paginated twin,
      used per post by the hashtag-with-comments crawl. */
  function PostCommentsList(mediaId: string, maxComments: int, net: Net): (r: (seq<CommentRecord>, Net))
    ensures |r.0| <= Max(0, maxComments)
    ensures AllShaped(Regroup(r.0), mediaId)
    ensures Advances(net, r.1)
  {
    var run := CrawlComments(Paged, mediaId, maxComments, net);
    ShapedLevelled(run.threads, mediaId);
    RegroupFlatten(run.threads);
    (if run.raised then [] else Flatten(run.threads), run.net)
  }

  /** The tree view's list, cut back into threads, holds the first page's
      comments in order; it is short of that page only when an exception
      emptied it or the cap was reached. */
  lemma PostCommentUsersParents(mediaId: string, maxComments: Option<int>, net: Net)
    ensures var m := Strip(mediaId);
            var r := PostCommentUsers(mediaId, maxComments, net);
            var d := ApiRequest(Request(Comments(m), None), net).0;
            m != "" ==>
              && |r.1.sent| > |net.sent| && r.1.sent[|net.sent|] == Request(Comments(m), None)
              && (d.Some? && Truthy(d.value) && PageComments(d.value).Ok? ==>
                    var items := PageComments(d.value).value;
                    var ts := Regroup(r.0);
                    && LeadingParents(items, ts, m)
                    && (|ts| < |items| ==> r.0 == [] || |r.0| >= ResolveCap(maxComments)))
  {
    var m := Strip(mediaId);
    if m != "" {
      var run := CrawlComments(Tree, m, ResolveCap(maxComments), net);
      CrawlCommentsParents(Tree, m, ResolveCap(maxComments), net);
      ShapedLevelled(run.threads, m);
      RegroupFlatten(run.threads);
    }
  }

  /** The same for the paginated twin. */
  lemma PostCommentsListParents(mediaId: string, maxComments: int, net: Net)
    ensures var r := PostCommentsList(mediaId, maxComments, net);
            var d := ApiRequest(Request(Comments(mediaId), None), net).0;
            && |r.1.sent| > |net.sent| && r.1.sent[|net.sent|] == Request(Comments(mediaId), None)
            && (d.Some? && Truthy(d.value) && PageComments(d.value).Ok? ==>
                  var items := PageComments(d.value).value;
                  var ts := Regroup(r.0);
                  && LeadingParents(items, ts, mediaId)
                  && (|ts| < |items| ==> r.0 == [] || |r.0| >= maxComments))
  {
    var run := CrawlComments(Paged, mediaId, maxComments, net);
    CrawlCommentsParents(Paged, mediaId, maxComments, net);
    ShapedLevelled(run.threads, mediaId);
    RegroupFlatten(run.threads);
  }
}
