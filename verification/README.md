# IGSpider crawl core in Dafny

This project models the crawling core of `IGSpider`, an Instagram scraper. It covers the
following pieces of `ig_spider.py`, each as pure functions over a small JSON datatype:

- **`_api_request`**: the single request routine. It classifies each response and retries on HTTP 429.
- **`_extract_medias_from_response`**: the response normaliser. It tries four envelope shapes in a fixed order.
- **`get_hashtag_users`**: the hashtag crawl. It keeps one record per author, the first one seen, up to `max_posts`.
- **`get_hashtag_posts_with_comments`**: the posts-with-comments crawl. It produces a dict of posts keyed by `pk`, each with its comment list.
- **The two comment crawlers**:
  - the tree view, `get_post_comment_users` with `_get_child_comments_for_tree`;
  - the paginated twin, `_get_post_comments_list` with `_process_comments_page`, `_get_child_comments_list` and `_process_child_comments_page`.
- **The login state**: `set_session_id`, `logout`, `_try_load_session` and `get_login_status`.

The network is a tape of raw responses. Each HTTP attempt consumes one response, and an
exhausted tape stands for a transport failure. Every request the spider sends is logged,
so contracts can say which endpoints a crawl touches and in what order. The Python
semantics the crawlers depend on are modelled exactly; any of them can raise an
exception, which the crawlers catch at the same places the source does:

- `dict.get` on a non-dict;
- `in` and iteration;
- hashing, with `True == 1`;
- `> 0` on a non-number;
- slicing a non-string inside a progress `print`.

Modules:

- `PyJson`: JSON values and the Python operations on them, including `str.strip`.
- `Network`: endpoints, requests, the response tape, and `_api_request`.
- `Normalizer`: `_extract_medias_from_response`, plus a reference description of the four envelope shapes (`IsEnvelope`) and JSON builders for the grid shape.
- `Hashtag`: `get_hashtag_users`, plus a reference "first per author" deduplication.
- `Comments`: both comment crawlers. The crawl builds a sequence of threads (a parent and its replies); the returned list is their concatenation.
- `Posts`: `get_hashtag_posts_with_comments`, with the insertion-ordered dict it returns.
- `Session`: the client's credentials, cookie jar, `X-CSRFToken` header, `is_logged_in` flag and session file.

Behaviour of the code worth noting:

- An exception inside a crawl discards everything collected and returns `[]` or `{}`. The one exception is the tree view's reply fetch, which keeps the replies read before the exception.
- The 429 retry has no bound in the code.
- The tree view fetches one page of replies per parent. The paginated twin follows the reply cursor.
- `set_session_id` does not reject an empty session id.
- A rejected session leaves `is_logged_in` as it was.
- `logout` keeps `ig_www_claim` and the `X-CSRFToken` header.

## Model

| member | source | states |
|---|---|---|
| Network.Classify | ig_spider.py:260-277 | An HTML content type without "json" gives no data whatever the status. Otherwise, 200 gives the parsed body, or nothing if it did not parse. 429 is a retry signal. 401 and every other status give nothing. |
| Network.ApiRequest | ig_spider.py:222-287 | Every attempt sends the identical request, and later state only extends the request log and consumes the tape. Data is returned only by consuming a response. |
| Network.ApiRequestRetries | ig_spider.py:266-271 | After n leading 429 responses, the call sends the request exactly n+1 times. Its answer is what response n carries, or nothing if the tape ran out. |
| Network.ThrottledThenOk | ig_spider.py:266-271 | A 429 followed by a 200 yields the 200's body after exactly two sends of the same request. |
| Normalizer.Extract | ig_spider.py:720-749 | Anything but a dict, list or string raises. A grid or sections shape gives a list when it succeeds. Without either, a dict gives its medias value, else its items value, else an empty list. |
| Normalizer.ExtractEnvelope | ig_spider.py:720-749 | Shape priority is media_grid, then sections, then medias, then items. When a response is one of the four shapes and no higher-priority key is present, extraction returns exactly what the shape carries, whatever other keys the response, the grid, each section and each layout_content hold. For the two section shapes that is the in-order concatenation of each section's layout_content.medias. |
| Normalizer.SectionMediasOfSections | ig_spider.py:726-730 | The section loop concatenates the sections' media lists in order. |
| Normalizer.GridWinsOverLowerShapes | ig_spider.py:725-731 | A real grid (sections with a layout_type, plus next_max_id) yields the sections' media, even when empty, and medias and items beside it are ignored. |
| Normalizer.ExtractNoShape | ig_spider.py:745-749 | A dict with none of the four keys yields an empty list. |
| Normalizer.ExtractBadGridRaises | ig_spider.py:725-726 | A media_grid that is not a dict raises, even if a lower shape is present. |
| Hashtag.Unpack | ig_spider.py:363-366 | An item that is not a dict raises. The media read is `item.get("media", item)`: the item itself when it has no "media" key, and that key's value otherwise. The caption and location default to a dict when falsy. |
| Hashtag.UnpackWrapped | ig_spider.py:363 | A media wrapped as {"media": m, ...} reads exactly as the bare m. |
| Hashtag.BuildRecord | ig_spider.py:371-388 | The record is built exactly when the user and location are dicts. It carries the author's username and the media pk. |
| Hashtag.Candidate | ig_spider.py:368-371 | A new entry is produced only for a truthy, unseen author. It is keyed by the hash of that author. |
| Hashtag.AddUsers | ig_spider.py:358-389 | The page loop only appends, never exceeds the cap, and keeps keys distinct and keyed by author. |
| Hashtag.FetchPage | ig_spider.py:332-396 | One page requests only the search endpoint. It continues only with a truthy cursor and only after consuming a response. Without an exception its users are the page loop's result over its items. |
| Hashtag.PageMedias | ig_spider.py:345-356 | The page read succeeds exactly when the data is a dict and extraction and iteration succeed. It returns the extracted value and its items, and the value is truthy exactly when there are items. |
| Hashtag.NextCursor | ig_spider.py:391-396 | The cursor read raises exactly when media_grid is present and not a dict. A truthy media_grid.next_max_id is the cursor; otherwise the top-level next_max_id is. |
| Hashtag.FetchPageReads | ig_spider.py:336-348 | A page sends the search request with the current cursor, and its tape is the request's. No data or falsy data ends the loop with no items. A page whose read raises ends it with the exception flag. |
| Hashtag.FetchPageItems | ig_spider.py:345-396 | For a readable page, the items are exactly the page's media. An empty page leaves users alone. Otherwise users grow by the page loop. The loop goes on exactly when nothing raised and the next cursor is truthy, and then with that cursor. |
| Hashtag.RealGridPage | ig_spider.py:725-731 | A response carrying a real media_grid reads as the concatenated section media, and its truthy next_max_id is the next cursor. |
| Hashtag.Loop | ig_spider.py:332-396 | The page loop consumes the tape in order and requests only the search endpoint. It never exceeds max_posts and keeps authors distinct. |
| Hashtag.AfterPage | ig_spider.py:350-396 | The rest of a round keeps the page's raw items as a prefix of the exported list and its users as a prefix of the result, within the cap. |
| Hashtag.NextPageHasItems | ig_spider.py:350-356 | The loop goes round again only after a page whose extraction yielded items; an empty page ends it even with a cursor. |
| Hashtag.HashtagUsers | ig_spider.py:289-415 | At most max(0, max_posts) records, with distinct, truthy usernames. A cap of 0 or less sends no request. |
| Hashtag.DedupFirstWins | ig_spider.py:368-371 | The reference dedup keeps exactly the first occurrence of each unseen author, in first-seen order, and drops no author. |
| Hashtag.DedupAppend | ig_spider.py:332-358 | Deduplicating two pages equals deduplicating the first, then the second against what the first kept. |
| Hashtag.AddUsersIsTakeOfDedup | ig_spider.py:358-389 | Whenever the page loop does not raise, it adds the page's deduplicated new authors, cut at the remaining cap. Items past the cap and posts of already-seen authors may be unreadable. |
| Hashtag.LoopIsTakeOfDedup | ig_spider.py:332-396 | Whenever the crawl does not raise, the users across pages are the first cap distinct authors of all items collected. |
| Hashtag.AfterPageIsTakeOfDedup | ig_spider.py:358-396 | The same from any page on: the page's new authors followed by the later rounds' are one deduplication of all items from that page on. |
| Hashtag.HashtagUsersFirstPerAuthor | ig_spider.py:358-405 | For every run, the result is the first record per author over all collected items, in first-seen order, cut at max_posts. |
| Comments.ParentRecord | ig_spider.py:809-819 | A parent record has the empty level and the post id. Its reply count and pk are the comment's. |
| Comments.ReplyRecord | ig_spider.py:908-917 | A reply record has level "  └─", reply count 0 and the post id. |
| Comments.TreeReplies | ig_spider.py:885-924 | The tree view's reply fetch sends only the one child-comments request. It returns at most the budget, all of them replies. |
| Comments.TreeReplyItems | ig_spider.py:903-924 | The tree view's reply loop keeps what was already read as a prefix and never exceeds the budget. Every record it adds is a reply of the post. |
| Comments.ReadRepliesRecords | ig_spider.py:903-918 | Each kept reply is the record read from the child at the same position. |
| Comments.ReadRepliesStops | ig_spider.py:903-924 | Reading stops at the first reply whose record raises, or right after the first reply whose text cannot be sliced by the progress line, and at no other place. |
| Comments.TreeReplyItemsReads | ig_spider.py:903-924 | The replies kept are the items' records up to where reading stops (as Comments.ReadRepliesStops states), cut at the budget, after what was already read. |
| Comments.TreeRepliesContent | ig_spider.py:885-924 | The tree view's reply fetch returns exactly the child_comments records up to where reading stops, cut at the budget. No data, falsy data or an unreadable child list gives []. |
| Comments.TreeRepliesExample | ig_spider.py:885-924 | Three readable replies with string texts, budget 3 or more, yield exactly those three records after one request. |
| Comments.PagedReplies | ig_spider.py:580-618 | The twin's reply fetch requests only that parent's child-comments endpoint. It returns at most the budget, all of them replies. |
| Comments.ReadAllSpec | ig_spider.py:620-636 | Reading a page of reply records succeeds exactly when every record reads, and then it yields those records in order. |
| Comments.PagedReplyItems | ig_spider.py:620-636 | The twin's page loop keeps what was already read as a prefix, within the budget, and adds only replies of the post. |
| Comments.PagedReplyItemsReads | ig_spider.py:620-636 | The twin's page loop adds the records of the first budget-minus-read items, or raises if any of those cannot be read. |
| Comments.ReplyPage | ig_spider.py:610-613 | A reply page succeeds exactly when its child_comments, the records within the budget and next_min_id can be read. It then yields the accumulated records followed by those records, and the next cursor. |
| Comments.PagedRepliesFirstPage | ig_spider.py:591-603 | The twin first requests the parent's child comments without a cursor. No data or an unreadable first page gives []. Otherwise the first page's records begin the result, and are the whole result without a next cursor. |
| Comments.ReplyPages | ig_spider.py:602-613 | The reply cursor loop only extends the list, within the budget, and requests only that parent's child comments. It stops at once without a truthy cursor or once the budget is reached. Otherwise it first requests the page at the cursor. |
| Comments.CommentItem | ig_spider.py:804-833 | A comment that cannot be read raises and changes nothing. Otherwise exactly one thread is appended, and its parent is that comment's record. Replies are requested only if the count is positive, room remains and the pk is truthy. They are placed right after the parent, and the output stays within the cap. |
| Comments.ParentReplies | ig_spider.py:824-833 | A reply count that is not a number raises. Replies are requested only when the count is positive, budget remains and the pk is truthy. Only that parent's reply endpoint is requested, and at most the budget is returned, all of them replies. |
| Comments.ParentRepliesFetch | ig_spider.py:824-833 | A qualifying parent with budget left gets exactly what the reply fetch returns. A non-qualifying parent gets no replies and sends nothing. |
| Comments.ParentThread | ig_spider.py:821-833 | A parent's thread has that parent and at most the budget of its replies, fetched only for a qualifying parent, from that parent's reply endpoint. |
| Comments.ParentThreadReplies | ig_spider.py:821-833 | The thread raises exactly when the tree view cannot slice the parent's text or the reply fetch raises. Then it has no replies. Otherwise its replies are exactly the fetched ones. |
| Comments.CommentItemReplies | ig_spider.py:804-833 | The appended thread's replies are exactly what the parent's reply fetch returns, using the live budget `max_comments - len(comments_list)` after the parent was added, unless something raised. |
| Comments.TreeThreadExample | ig_spider.py:804-924 | A parent with reply count 3 and three readable replies, with room for all four, gives the list [parent, r1, r2, r3] after one reply request. |
| Comments.CommentItems | ig_spider.py:804-833 | A page of comments only extends the threads and keeps the cap. It requests only replies of parents that qualify. The new threads' parents are the page's comment records in order. It stops early only on an exception or a full list. |
| Comments.CommentPages | ig_spider.py:845-877 | The top-level cursor loop keeps the cap. It requests only comment pages of the post and replies of qualifying parents. |
| Comments.CommentPagesFull | ig_spider.py:836-837 | Once the list is full the cursor loop sends nothing and changes nothing. |
| Comments.PageThenRest | ig_spider.py:843-874 | A received page only extends the threads, within the cap, and requests only comment pages and qualifying replies. |
| Comments.PageThenRestParents | ig_spider.py:843-874 | An unreadable page raises and changes nothing. Otherwise the new threads start with the page's comment records in order, and fewer threads than comments means an exception or a full list. |
| Comments.CaptionBanner | ig_spider.py:796-798 | The banner raises exactly when the data is not a dict, or a truthy caption is not a dict, or its user is present and not a dict. Without a caption it shows nothing and does not raise. A caption user with a username shows that username. |
| Comments.CrawlComments | ig_spider.py:787-877 | The whole crawl keeps the cap, produces well-shaped threads, and sends only requests for this post. |
| Comments.CrawlCommentsParents | ig_spider.py:787-834 | The crawl first requests the post's comments without a cursor. No data gives no threads and no exception. A readable first page gives threads whose parents are its comments in order, stopping early only on an exception or a full list. |
| Comments.PostCommentUsers | ig_spider.py:752-883 | At most max_comments records, which regroup into well-shaped threads: each parent a top-level record of this post, followed by reply records of this post. An id that strips to empty returns [] and sends nothing. |
| Comments.PostCommentUsersParents | ig_spider.py:752-834 | For a non-empty stripped id, the first request is the post's comments. With a readable first page, the result's parents are its comments in order, and fewer threads than comments means [] or a full list. |
| Comments.PostCommentsList | ig_spider.py:514-551 | The twin's result has at most max_comments records and regroups into well-shaped threads. |
| Comments.PostCommentsListParents | ig_spider.py:514-551 | The same for the twin: the first request is the comments page, and the result's parents are the first page's comments in order. |
| Comments.FlattenRegroup | ig_spider.py:820-833 | Regrouping a flat comment list loses nothing. |
| Comments.RegroupFlatten | ig_spider.py:820-833 | The level markers alone recover the threads, so each reply belongs to the nearest parent before it. |
| Comments.ThreadBlock | ig_spider.py:820-833 | Each thread is one contiguous block: the parent, then its replies, after earlier threads and before later ones. |
| Posts.ReadPost | ig_spider.py:472-490 | The post fields are read. An item with a falsy pk is skipped. |
| Posts.DictSet | ig_spider.py:482-493 | Assigning `d[k]` keeps keys distinct and adds k. An existing key keeps its position, and a new key goes at the end. |
| Posts.DictSetFind | ig_spider.py:482-493 | Assignment is a map update: k finds the new value, and every other key is unchanged. |
| Posts.ItemKey | ig_spider.py:472-482 | An item is kept only with a truthy pk, under the key that pk hashes to. |
| Posts.StorePost | ig_spider.py:482-499 | A kept post is stored under its key with its fields. Keys stay distinct, and the entry is well formed. |
| Posts.PostItems | ig_spider.py:468-503 | Stops at max_posts counted items and keeps keys distinct. Every entry has a truthy, hashable pk and comments within the cap. Without an exception, the keys are exactly the first max_posts items that have a pk. |
| Posts.HashtagPostsWithComments | ig_spider.py:417-512 | First sends the hashtag search. Returns at most max(0, max_posts) distinct posts, each with a well-shaped comment list within the per-post cap. |
| Posts.HashtagPostsKeys | ig_spider.py:451-503 | When the search returns readable, non-empty media, and no exception occurs, the result's keys are exactly those of the first max_posts media with a truthy pk. Otherwise the result is empty. |
| Session.SetCookies | ig_spider.py:91-97 | A truthy session id sets the sessionid cookie. A truthy CSRF token sets the csrftoken cookie and the header. Nothing else changes. |
| Session.SetSessionId | ig_spider.py:129-153 | The inputs are stripped, and an empty optional token becomes None. The flag is raised and the file saved exactly when verification succeeds. Otherwise the flag and file are unchanged. |
| Session.Logout | ig_spider.py:185-197 | The file is deleted. The session id, CSRF token and username are cleared, the flag is lowered and the cookies are cleared. The claim and the CSRF header are kept. |
| Session.TryLoadSession | ig_spider.py:59-89 | Loading succeeds exactly when the file holds a dict with a truthy session_id and verification passes. A missing, unreadable or non-dict file changes nothing. |
| Session.SaveDoc | ig_spider.py:99-114 | The session file is a dict of exactly five entries. |
| Session.SaveDocFields | ig_spider.py:99-114 | The file holds the session id, CSRF token, claim, username and save time, under the source's key names. |
| Session.LoginStatus | ig_spider.py:199-203 | The status is "未登录" exactly when logged out. Otherwise it is "已登录", followed by ": @name" when a username is known. |
| Session.SaveThenLoad | ig_spider.py:99-114 | A saved session, loaded by a fresh client, restores the same credentials. It logs in exactly when the id is non-empty and verification passes. |
| Session.LogoutThenLoad | ig_spider.py:185-197 | After logout, loading restores nothing and the status is logged out. |
| Session.FreshLoginHasNoName | ig_spider.py:129-153 | A login through set_session_id never supplies a username. |
| PyJson.StripIdempotent | ig_spider.py:138 | Stripping is idempotent. |
| PyJson.StripAllSpace | ig_spider.py:768-771 | A whitespace-only id strips to empty. |

## Left out

- HTTP itself is not modelled: headers, the User-Agent choice, `X-IG-App-ID` updates, timeouts and redirects. `_verify_session` is a boolean input.
- `time.sleep`, the random jitter and the `uuid` rank token carry no behaviour and are not modelled.
- All `print` and `traceback` output is left out. The one exception is the slicing in the comment progress lines, because it can raise.
- File I/O is left out. `_save_session` is modelled as the document it writes; a failing write is not modelled. `save_raw_medias`, `save_results` and `save_posts_with_comments` are not modelled.
- `interactive_login` (console input), `test_connection` (reachability probe) and `main.py` (menus) are not modelled.
- `config.py` values appear only as the constants 50 and 100.
- The `last_next_max_id` attribute is not modelled.
- Network.ApiRequest: the retry is bounded by the length of the response tape. Python's recursion limit is not modelled, and the model does not claim the source terminates under sustained 429.
- Comments.ReplyEndpoint: records the parent's pk value. The source puts `str(pk)` into the URL.
- Session.LoginStatus: a username that is a list or dict is shown as a placeholder, not as its Python repr. Only a hand-edited session file can produce one.
- JSON numbers are integers only; floats are not modelled.
- Hashtag.Loop: the tape is tied to the result one page at a time (Hashtag.FetchPageReads, Hashtag.FetchPageItems). There is no closed form of the whole crawl over the tape.
- Comments.CrawlCommentsParents: states the parents of the first page and completeness. The replies under each parent are stated per comment by Comments.CommentItemReplies, not composed over the whole crawl.
- Duplicate JSON keys: a parsed dict has distinct keys, but `JObj` does not enforce it. Lookups use the first binding and iteration lists every binding. Python's `json.loads` keeps the last binding of a repeated key; no crawler result depends on this.
- Posts.PostItems: the comment list is stored together with the post entry. The source stores `[]` and fills it in afterwards. The two agree because the comment fetch catches every exception.
