/** The two paged WaniKani feed clients (addon/__init__.py:244-317):
    `get_updated_kanji_assignments` and `get_kanji_definitions`.

    The network is an abstract script: the k-th response in the sequence
    answers the k-th request the client sends. A 304 reaches the client as an
    HTTP error with that code, as `urllib` raises it. A script that runs out
    before the walk ends stands for a request that got no reply, which
    `urlopen` would report by raising a transport error. */
module WaniKani {
  import opened Common
  import opened Cache
  import opened Settings

  const WANIKANI_REVISION := "20170710"
  const NOT_MODIFIED := 304

  /** An assignment record, reduced to `data.subject_id`. */
  datatype Assignment = Assignment(subjectId: nat)

  /** A subject record, reduced to `id` and `data.characters`. */
  datatype Subject = Subject(id: nat, characters: string)

  /** A decoded 200 response: its `ETag` header, `data_updated_at`, `data`
      and `pages.next_url`. A missing header or JSON `null` is `None`. */
  datatype Page<T> = Page(etag: Option<string>, dataUpdatedAt: Option<string>, data: seq<T>, nextUrl: Option<string>)

  datatype Response<T> = Ok(page: Page<T>) | HttpError(code: int)

  /** What escapes a fetch as an exception. */
  datatype FetchError = HttpStatus(code: int) | NoReply

  /** A fetch's answer: the ETag and timestamp kept from the last page, and what
      was gathered. The 304 answer is `Fetched(None, None, <empty>)`. */
  datatype Fetched<A> = Fetched(etag: Option<string>, updated: Option<string>, items: A)

  /** `NEW_KANJI` ("New") and `UPDATED_KANJI` ("Updated"). */
  datatype Mode = NewKanji | UpdatedKanji

  /** Where a request goes. The first request of a walk is built from fixed
      filters plus the parameters kept here; later ones follow `next_url`. */
  datatype Target =
    | AssignmentsQuery(updatedAfter: Option<string>)
    | SubjectsQuery(ids: set<string>, updatedAfter: Option<string>)
    | NextPage(url: string)

  datatype Request = Request(target: Target, authorization: string, revision: string, ifNoneMatch: Option<string>)

  function Bearer(apiKey: string): string
  {
    "Bearer " + apiKey
  }

  /** A page whose `next_url` is truthy: the walk goes on after it. */
  predicate HasNext<T>(r: Response<T>)
  {
    r.Ok? && Truthy(r.page.nextUrl)
  }

  /** How many leading responses link to a further page; the walk sends one
      request more than that. */
  function LinkedPages<T>(rs: seq<Response<T>>): (k: nat)
    ensures k <= |rs|
    ensures forall n :: 0 <= n < k ==> HasNext(rs[n])
    ensures k < |rs| ==> !HasNext(rs[k])
  {
    if |rs| == 0 || !HasNext(rs[0]) then 0 else 1 + LinkedPages(rs[1..])
  }

  /** The first `count` requests of a walk that starts at `first` and follows
      the `next_url` of each response, all carrying the same headers. */
  function Requests<T>(first: Target, rs: seq<Response<T>>, count: nat,
                       authorization: string, ifNoneMatch: Option<string>): (reqs: seq<Request>)
    requires count <= LinkedPages(rs) + 1
    ensures |reqs| == count
    ensures count > 0 ==> reqs[0].target == first
    ensures forall n :: 0 < n < count ==> reqs[n].target == NextPage(rs[n - 1].page.nextUrl.value)
    ensures forall n :: 0 <= n < count ==>
              && reqs[n].authorization == authorization
              && reqs[n].revision == WANIKANI_REVISION
              && reqs[n].ifNoneMatch == ifNoneMatch
  {
    if count == 0 then []
    else
      var target := if count == 1 then first else NextPage(rs[count - 2].page.nextUrl.value);
      Requests(first, rs, count - 1, authorization, ifNoneMatch)
        + [Request(target, authorization, WANIKANI_REVISION, ifNoneMatch)]
  }

  // ----- assignments -----

  /** The ids `str(item["data"]["subject_id"])` of one page. */
  function PageIds(p: Page<Assignment>): set<string>
  {
    set a | a in p.data :: IdKey(a.subjectId)
  }

  /** The ids gathered over a run of responses, page after page. */
  function IdsOf(rs: seq<Response<Assignment>>): set<string>
  {
    if |rs| == 0 then {}
    else IdsOf(rs[..|rs| - 1]) + (if rs[|rs| - 1].Ok? then PageIds(rs[|rs| - 1].page) else {})
  }

  /** The result of the assignment walk over the script `rs`. */
  function AssignmentsFetch(rs: seq<Response<Assignment>>): Result<Fetched<set<string>>, FetchError>
  {
    var k := LinkedPages(rs);
    if k == |rs| then Failure(NoReply)
    else match rs[k]
      case HttpError(code) =>
        if code == NOT_MODIFIED then Success(Fetched(None, None, {})) else Failure(HttpStatus(code))
      case Ok(page) => Success(Fetched(page.etag, page.dataUpdatedAt, IdsOf(rs[..k + 1])))
  }

  /** The `updated_after` filter: only when the cached list timestamp is truthy. */
  function AssignmentsUpdatedAfter(cache: KanjiListCache): (u: Option<string>)
    ensures u.Some? <==> Truthy(cache.lastListUpdate)
    ensures u.Some? ==> u == cache.lastListUpdate
  {
    if Truthy(cache.lastListUpdate) then cache.lastListUpdate else None
  }

  /** The `If-None-Match` header: only when the cached list ETag is truthy. */
  function AssignmentsIfNoneMatch(cache: KanjiListCache): (h: Option<string>)
    ensures h.Some? <==> Truthy(cache.lastListEtag)
    ensures h.Some? ==> h == cache.lastListEtag
  {
    if Truthy(cache.lastListEtag) then cache.lastListEtag else None
  }

  /** `get_updated_kanji_assignments`: walks the started-kanji assignments,
      conditional on the cached list watermarks, gathering subject ids. */
  method GetUpdatedKanjiAssignments(config: Config, rs: seq<Response<Assignment>>)
      returns (r: Result<Fetched<set<string>>, FetchError>, sent: seq<Request>)
    ensures r == AssignmentsFetch(rs)
    ensures |sent| == LinkedPages(rs) + 1
    ensures sent[0].target == AssignmentsQuery(AssignmentsUpdatedAfter(config.kanjiListCache))
    ensures forall n :: 0 < n < |sent| ==> sent[n].target == NextPage(rs[n - 1].page.nextUrl.value)
    ensures forall n :: 0 <= n < |sent| ==>
              && sent[n].authorization == Bearer(config.wkApiKey)
              && sent[n].revision == WANIKANI_REVISION
              && sent[n].ifNoneMatch == AssignmentsIfNoneMatch(config.kanjiListCache)
  {
    var cache := config.kanjiListCache;
    var first := AssignmentsQuery(AssignmentsUpdatedAfter(cache));
    var url: Option<Target> := Some(first);
    var listEtag: Option<string> := None;
    var listUpdated: Option<string> := None;
    var updatedIds: set<string> := {};
    sent := [];
    var i := 0;
    while url.Some?
      invariant 0 <= i <= |rs|
      invariant |sent| == i
      invariant forall n :: 0 <= n < i ==> rs[n].Ok?
      invariant forall n :: 0 <= n < i - 1 ==> HasNext(rs[n])
      invariant url.Some? <==> i == 0 || HasNext(rs[i - 1])
      invariant url.Some? && i == 0 ==> url.value == first
      invariant url.Some? && i > 0 ==> url.value == NextPage(rs[i - 1].page.nextUrl.value)
      invariant i > 0 ==> listEtag == rs[i - 1].page.etag && listUpdated == rs[i - 1].page.dataUpdatedAt
      invariant updatedIds == IdsOf(rs[..i])
      invariant sent == Requests(first, rs, i, Bearer(config.wkApiKey), AssignmentsIfNoneMatch(cache))
      decreases |rs| - i + (if url.Some? then 1 else 0)
    {
      sent := sent + [Request(url.value, Bearer(config.wkApiKey), WANIKANI_REVISION, AssignmentsIfNoneMatch(cache))];
      if i == |rs| {
        r := Failure(NoReply);
        return;
      }
      match rs[i]
      case HttpError(code) =>
        r := if code == NOT_MODIFIED then Success(Fetched(None, None, {})) else Failure(HttpStatus(code));
        return;
      case Ok(page) =>
        listEtag := page.etag;
        listUpdated := page.dataUpdatedAt;
        updatedIds := updatedIds + PageIds(page);
        url := if Truthy(page.nextUrl) then Some(NextPage(page.nextUrl.value)) else None;
        assert rs[..i + 1][..i] == rs[..i];
        i := i + 1;
    }
    r := Success(Fetched(listEtag, listUpdated, updatedIds));
  }

  // ----- definitions -----

  /** `updated_definitions[str(item["id"])] = item["data"]["characters"]` for
      each item in turn: a later item overwrites an earlier one with the same id. */
  function Record(m: map<string, string>, items: seq<Subject>): map<string, string>
  {
    if |items| == 0 then m
    else Record(m, items[..|items| - 1])[IdKey(items[|items| - 1].id) := items[|items| - 1].characters]
  }

  /** The definitions gathered over a run of responses, page after page. */
  function DefsOf(rs: seq<Response<Subject>>): map<string, string>
  {
    if |rs| == 0 then map[]
    else Record(DefsOf(rs[..|rs| - 1]), if rs[|rs| - 1].Ok? then rs[|rs| - 1].page.data else [])
  }

  /** The result of the subject walk over the script `rs`. */
  function DefinitionsFetch(rs: seq<Response<Subject>>): Result<Fetched<map<string, string>>, FetchError>
  {
    var k := LinkedPages(rs);
    if k == |rs| then Failure(NoReply)
    else match rs[k]
      case HttpError(code) =>
        if code == NOT_MODIFIED then Success(Fetched(None, None, map[])) else Failure(HttpStatus(code))
      case Ok(page) => Success(Fetched(page.etag, page.dataUpdatedAt, DefsOf(rs[..k + 1])))
  }

  /** The `updated_after` filter: only in Updated mode, and only when the cached
      definition timestamp is truthy. */
  function DefinitionsUpdatedAfter(mode: Mode, cache: KanjiListCache): (u: Option<string>)
    ensures u.Some? <==> mode != NewKanji && Truthy(cache.lastDefinitionUpdate)
    ensures u.Some? ==> u == cache.lastDefinitionUpdate
  {
    if mode != NewKanji && Truthy(cache.lastDefinitionUpdate) then cache.lastDefinitionUpdate else None
  }

  /** The `If-None-Match` header as evidently intended: only in Updated mode, and
      only when the cached definition ETag is truthy. */
  function DefinitionsIfNoneMatch(mode: Mode, cache: KanjiListCache): (h: Option<string>)
    ensures h.Some? <==> mode != NewKanji && Truthy(cache.lastDefinitionEtag)
    ensures h.Some? ==> h == cache.lastDefinitionEtag
  {
    if mode != NewKanji && Truthy(cache.lastDefinitionEtag) then cache.lastDefinitionEtag else None
  }

  /** The `If-None-Match` header of request `n` as `get_kanji_definitions` computes it. The
      parameter `updated` that held the mode is rebound to `None` before the
      loop and to each page's `data_updated_at` inside it, so the guard
      `updated != NEW_KANJI` compares against that value and never sees `mode`. */
  function DefinitionsIfNoneMatchAsWritten(mode: Mode, rs: seq<Response<Subject>>, n: nat, cache: KanjiListCache): (h: Option<string>)
    requires n <= LinkedPages(rs)
    ensures h.Some? ==> h == cache.lastDefinitionEtag
    ensures n == 0 ==> h == DefinitionsIfNoneMatch(UpdatedKanji, cache)
  {
    var updated := if n == 0 then None else rs[n - 1].page.dataUpdatedAt;
    if updated != Some("New") && Truthy(cache.lastDefinitionEtag) then cache.lastDefinitionEtag else None
  }

  /** The discrepancy: in New mode the add-on still sends the cached ETag on the
      first request, where the intended header is absent. */
  lemma NewModeSendsCachedEtagAsWritten(cache: KanjiListCache, rs: seq<Response<Subject>>)
    requires Truthy(cache.lastDefinitionEtag)
    ensures DefinitionsIfNoneMatchAsWritten(NewKanji, rs, 0, cache) == cache.lastDefinitionEtag
    ensures DefinitionsIfNoneMatch(NewKanji, cache) == None
  {
  }

  /** `get_kanji_definitions` (with the corrected `If-None-Match` guard): walks
      the kanji subjects with the given ids, conditional on the cached
      definition watermarks in Updated mode only, gathering id to characters. */
  method GetKanjiDefinitions(config: Config, kanjiIds: set<string>, mode: Mode, rs: seq<Response<Subject>>)
      returns (r: Result<Fetched<map<string, string>>, FetchError>, sent: seq<Request>)
    ensures r == DefinitionsFetch(rs)
    ensures |sent| == LinkedPages(rs) + 1
    ensures sent[0].target == SubjectsQuery(kanjiIds, DefinitionsUpdatedAfter(mode, config.kanjiListCache))
    ensures forall n :: 0 < n < |sent| ==> sent[n].target == NextPage(rs[n - 1].page.nextUrl.value)
    ensures forall n :: 0 <= n < |sent| ==>
              && sent[n].authorization == Bearer(config.wkApiKey)
              && sent[n].revision == WANIKANI_REVISION
              && sent[n].ifNoneMatch == DefinitionsIfNoneMatch(mode, config.kanjiListCache)
  {
    var cache := config.kanjiListCache;
    var first := SubjectsQuery(kanjiIds, DefinitionsUpdatedAfter(mode, cache));
    var url: Option<Target> := Some(first);
    var etag: Option<string> := None;
    var updated: Option<string> := None;
    var updatedDefinitions: map<string, string> := map[];
    sent := [];
    var i := 0;
    while url.Some?
      invariant 0 <= i <= |rs|
      invariant |sent| == i
      invariant forall n :: 0 <= n < i ==> rs[n].Ok?
      invariant forall n :: 0 <= n < i - 1 ==> HasNext(rs[n])
      invariant url.Some? <==> i == 0 || HasNext(rs[i - 1])
      invariant url.Some? && i == 0 ==> url.value == first
      invariant url.Some? && i > 0 ==> url.value == NextPage(rs[i - 1].page.nextUrl.value)
      invariant i > 0 ==> etag == rs[i - 1].page.etag && updated == rs[i - 1].page.dataUpdatedAt
      invariant updatedDefinitions == DefsOf(rs[..i])
      invariant sent == Requests(first, rs, i, Bearer(config.wkApiKey), DefinitionsIfNoneMatch(mode, cache))
      decreases |rs| - i + (if url.Some? then 1 else 0)
    {
      sent := sent + [Request(url.value, Bearer(config.wkApiKey), WANIKANI_REVISION, DefinitionsIfNoneMatch(mode, cache))];
      if i == |rs| {
        r := Failure(NoReply);
        return;
      }
      match rs[i]
      case HttpError(code) =>
        r := if code == NOT_MODIFIED then Success(Fetched(None, None, map[])) else Failure(HttpStatus(code));
        return;
      case Ok(page) =>
        etag := page.etag;
        updated := page.dataUpdatedAt;
        updatedDefinitions := RecordPage(updatedDefinitions, page.data);
        url := if Truthy(page.nextUrl) then Some(NextPage(page.nextUrl.value)) else None;
        assert rs[..i + 1][..i] == rs[..i];
        i := i + 1;
    }
    r := Success(Fetched(etag, updated, updatedDefinitions));
  }

  /** The `for item in page["data"]` loop of `get_kanji_definitions`. */
  method RecordPage(definitions: map<string, string>, items: seq<Subject>) returns (result: map<string, string>)
    ensures result == Record(definitions, items)
  {
    result := definitions;
    for j := 0 to |items|
      invariant result == Record(definitions, items[..j])
    {
      assert items[..j + 1][..j] == items[..j];
      result := result[IdKey(items[j].id) := items[j].characters];
    }
    assert items[..|items|] == items;
  }

  // ----- what a walk gathers -----

  /** A 304 on any request of the assignment walk discards whatever earlier
      pages brought: the answer is the sentinel `(None, None, set())`. */
  lemma NotModifiedDiscardsAssignments(rs: seq<Response<Assignment>>, k: nat)
    requires k < |rs| && rs[k] == HttpError(NOT_MODIFIED)
    requires forall n :: 0 <= n < k ==> HasNext(rs[n])
    ensures AssignmentsFetch(rs) == Success(Fetched(None, None, {}))
  {
    assert LinkedPages(rs) == k;
  }

  /** The same for the subject walk: `(None, None, {})`. */
  lemma NotModifiedDiscardsDefinitions(rs: seq<Response<Subject>>, k: nat)
    requires k < |rs| && rs[k] == HttpError(NOT_MODIFIED)
    requires forall n :: 0 <= n < k ==> HasNext(rs[n])
    ensures DefinitionsFetch(rs) == Success(Fetched(None, None, map[]))
  {
    assert LinkedPages(rs) == k;
  }

  /** Any other HTTP error ends the assignment walk and escapes with its status code. */
  lemma AssignmentsErrorPropagates(rs: seq<Response<Assignment>>, k: nat, code: int)
    requires code != NOT_MODIFIED
    requires k < |rs| && rs[k] == HttpError(code) && forall n :: 0 <= n < k ==> HasNext(rs[n])
    ensures AssignmentsFetch(rs) == Failure(HttpStatus(code))
  {
    assert LinkedPages(rs) == k;
  }

  /** The same for the subject walk. */
  lemma DefinitionsErrorPropagates(rs: seq<Response<Subject>>, k: nat, code: int)
    requires code != NOT_MODIFIED
    requires k < |rs| && rs[k] == HttpError(code) && forall n :: 0 <= n < k ==> HasNext(rs[n])
    ensures DefinitionsFetch(rs) == Failure(HttpStatus(code))
  {
    assert LinkedPages(rs) == k;
  }

  lemma {:induction false} IdsOfPages(rs: seq<Response<Assignment>>, m: nat)
    requires m <= |rs|
    ensures forall x :: x in IdsOf(rs[..m]) <==> exists n :: 0 <= n < m && rs[n].Ok? && x in PageIds(rs[n].page)
  {
    if m > 0 {
      IdsOfPages(rs, m - 1);
      assert rs[..m][..m - 1] == rs[..m - 1];
    }
  }

  /** A complete assignment walk answers the ETag and timestamp of its last
      page and exactly the ids found on its pages. */
  lemma AssignmentsAreUnionOfPages(rs: seq<Response<Assignment>>)
    requires LinkedPages(rs) < |rs| && rs[LinkedPages(rs)].Ok?
    ensures var last := rs[LinkedPages(rs)].page;
            AssignmentsFetch(rs).Success? &&
            AssignmentsFetch(rs).value.etag == last.etag &&
            AssignmentsFetch(rs).value.updated == last.dataUpdatedAt
    ensures forall x :: x in AssignmentsFetch(rs).value.items <==>
              exists n :: 0 <= n <= LinkedPages(rs) && x in PageIds(rs[n].page)
  {
    IdsOfPages(rs, LinkedPages(rs) + 1);
  }

  /** The definitions of one page, later items overwriting earlier ones. */
  function PageDefs(p: Page<Subject>): map<string, string>
  {
    Record(map[], p.data)
  }

  function ItemKeys(items: seq<Subject>): set<string>
  {
    set s | s in items :: IdKey(s.id)
  }

  /** Recording a run of items into `m` is Python's `m.update(...)` with the
      map those items make on their own. */
  lemma {:induction false} RecordIsUpdate(m: map<string, string>, items: seq<Subject>)
    ensures Record(m, items) == m + Record(map[], items)
    ensures Record(map[], items).Keys == ItemKeys(items)
  {
    if |items| > 0 {
      var init := items[..|items| - 1];
      RecordIsUpdate(m, init);
      assert ItemKeys(items) == ItemKeys(init) + {IdKey(items[|items| - 1].id)};
    }
  }

  /** Within a page, the last item carrying an id decides its characters. */
  lemma {:induction false} RecordLastWins(m: map<string, string>, items: seq<Subject>, j: nat)
    requires j < |items|
    requires forall j' :: j < j' < |items| ==> IdKey(items[j'].id) != IdKey(items[j].id)
    ensures IdKey(items[j].id) in Record(m, items)
    ensures Record(m, items)[IdKey(items[j].id)] == items[j].characters
  {
    if j < |items| - 1 {
      RecordLastWins(m, items[..|items| - 1], j);
    }
  }

  /** Each page's definitions overwrite those of the pages before it. */
  lemma DefsOfIsUpdate(rs: seq<Response<Subject>>)
    requires |rs| > 0 && rs[|rs| - 1].Ok?
    ensures DefsOf(rs) == DefsOf(rs[..|rs| - 1]) + PageDefs(rs[|rs| - 1].page)
  {
    RecordIsUpdate(DefsOf(rs[..|rs| - 1]), rs[|rs| - 1].page.data);
  }

  lemma {:induction false} DefsOfPages(rs: seq<Response<Subject>>, m: nat)
    requires m <= |rs|
    ensures forall x :: x in DefsOf(rs[..m]) <==> exists n :: 0 <= n < m && rs[n].Ok? && x in ItemKeys(rs[n].page.data)
  {
    if m > 0 {
      DefsOfPages(rs, m - 1);
      assert rs[..m][..m - 1] == rs[..m - 1];
      RecordIsUpdate(DefsOf(rs[..m - 1]), if rs[m - 1].Ok? then rs[m - 1].page.data else []);
    }
  }

  /** A complete subject walk answers the ETag and timestamp of its last page
      and a definition for exactly the ids found on its pages. */
  lemma DefinitionsAreUnionOfPages(rs: seq<Response<Subject>>)
    requires LinkedPages(rs) < |rs| && rs[LinkedPages(rs)].Ok?
    ensures var last := rs[LinkedPages(rs)].page;
            DefinitionsFetch(rs).Success? &&
            DefinitionsFetch(rs).value.etag == last.etag &&
            DefinitionsFetch(rs).value.updated == last.dataUpdatedAt
    ensures forall x :: x in DefinitionsFetch(rs).value.items <==>
              exists n :: 0 <= n <= LinkedPages(rs) && x in ItemKeys(rs[n].page.data)
  {
    DefsOfPages(rs, LinkedPages(rs) + 1);
  }
}
