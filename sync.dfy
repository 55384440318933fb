/** `update_unlocked_kanji` (addon/__init__.py:219-241): one synchronisation
    pass that reconciles the assignment feed and the subject feed with the
    cache a `Config` owns. The three walks it makes each get their own
    response script. */
module Sync {
  import opened Common
  import opened Cache
  import opened Settings
  import opened WaniKani

  /** Ids reported by the assignment feed that the incremental subject fetch
      did not answer for; the follow-up fetch asks for exactly these. */
  function MissingIds(updatedIds: set<string>, defsUpdates: map<string, string>): (missing: set<string>)
    ensures missing <= updatedIds
    ensures missing !! defsUpdates.Keys
    ensures updatedIds <= missing + defsUpdates.Keys
  {
    updatedIds - defsUpdates.Keys
  }

  /** The writes at the end of a pass: each watermark is replaced only by a
      truthy fetched value; the definitions are updated with the incremental
      answer and then with the follow-up answer. The follow-up's own ETag and
      timestamp are never written. */
  function WriteBack(cache: KanjiListCache, list: Fetched<set<string>>, defs: Fetched<map<string, string>>,
                     defsNew: map<string, string>): (c: KanjiListCache)
    ensures c.lastListUpdate == if Truthy(list.updated) then list.updated else cache.lastListUpdate
    ensures c.lastListEtag == if Truthy(list.etag) then list.etag else cache.lastListEtag
    ensures c.lastDefinitionUpdate == if Truthy(defs.updated) then defs.updated else cache.lastDefinitionUpdate
    ensures c.lastDefinitionEtag == if Truthy(defs.etag) then defs.etag else cache.lastDefinitionEtag
    ensures c.definitions.Keys == cache.definitions.Keys + defs.items.Keys + defsNew.Keys
    ensures forall k :: k in defsNew ==> c.definitions[k] == defsNew[k]
    ensures forall k :: k in defs.items && k !in defsNew ==> c.definitions[k] == defs.items[k]
    ensures forall k :: k in cache.definitions && k !in defs.items && k !in defsNew ==>
              c.definitions[k] == cache.definitions[k]
  {
    var c1 := if Truthy(list.updated) then cache.(lastListUpdate := list.updated) else cache;
    var c2 := if Truthy(list.etag) then c1.(lastListEtag := list.etag) else c1;
    var c3 := if Truthy(defs.updated) then c2.(lastDefinitionUpdate := defs.updated) else c2;
    var c4 := if Truthy(defs.etag) then c3.(lastDefinitionEtag := defs.etag) else c3;
    var c5 := if defs.items != map[] then c4.(definitions := c4.definitions + defs.items) else c4;
    if defsNew != map[] then c5.(definitions := c5.definitions + defsNew) else c5
  }

  /** The whole pass over the three response scripts: the assignment walk, the
      incremental subject walk, and, only when some id is missing, the
      unconditional subject walk. Any error ends the pass with no write. */
  function Reconcile(cache: KanjiListCache, listRs: seq<Response<Assignment>>,
                     defsRs: seq<Response<Subject>>, newRs: seq<Response<Subject>>): Result<KanjiListCache, FetchError>
  {
    match AssignmentsFetch(listRs)
    case Failure(e) => Failure(e)
    case Success(list) =>
      match DefinitionsFetch(defsRs)
      case Failure(e) => Failure(e)
      case Success(defs) =>
        var missing := MissingIds(list.items, defs.items);
        if missing == {} then Success(WriteBack(cache, list, defs, map[]))
        else
          match DefinitionsFetch(newRs)
          case Failure(e) => Failure(e)
          case Success(defsNew) => Success(WriteBack(cache, list, defs, defsNew.items))
  }

  /** `update_unlocked_kanji`: fetches first, then writes into the cache the
      config owns. On an error nothing has been written. */
  method UpdateUnlockedKanji(config: Config, listRs: seq<Response<Assignment>>,
                             defsRs: seq<Response<Subject>>, newRs: seq<Response<Subject>>)
      returns (error: Option<FetchError>, updatesSent: seq<Request>, newSent: seq<Request>)
    modifies config
    ensures config.wkApiKey == old(config.wkApiKey)
    ensures config.kanjiGlobalQuery == old(config.kanjiGlobalQuery)
    ensures config.kanjiIndividualQuery == old(config.kanjiIndividualQuery)
    ensures error.Some? <==> Reconcile(old(config.kanjiListCache), listRs, defsRs, newRs).Failure?
    ensures error.Some? ==> error.value == Reconcile(old(config.kanjiListCache), listRs, defsRs, newRs).error
    ensures error.Some? ==> config.kanjiListCache == old(config.kanjiListCache)
    ensures error.None? ==> config.kanjiListCache == Reconcile(old(config.kanjiListCache), listRs, defsRs, newRs).value
    // the incremental walk happens exactly when the assignment walk succeeds, and asks,
    // in Updated mode, for the reported ids and every cached id
    ensures updatesSent != [] <==> AssignmentsFetch(listRs).Success?
    ensures AssignmentsFetch(listRs).Success? ==>
              && |updatesSent| > 0
              && updatesSent[0].target ==
                   SubjectsQuery(AssignmentsFetch(listRs).value.items + old(config.kanjiListCache.definitions.Keys),
                                 DefinitionsUpdatedAfter(UpdatedKanji, old(config.kanjiListCache)))
              && forall n :: 0 <= n < |updatesSent| ==>
                   updatesSent[n].ifNoneMatch == DefinitionsIfNoneMatch(UpdatedKanji, old(config.kanjiListCache))
    // the follow-up walk happens exactly when ids are missing, for exactly those ids, and
    // (with the corrected header) without If-None-Match
    ensures newSent != [] <==>
              && AssignmentsFetch(listRs).Success?
              && DefinitionsFetch(defsRs).Success?
              && MissingIds(AssignmentsFetch(listRs).value.items, DefinitionsFetch(defsRs).value.items) != {}
    ensures newSent != [] ==>
              && newSent[0].target ==
                   SubjectsQuery(MissingIds(AssignmentsFetch(listRs).value.items, DefinitionsFetch(defsRs).value.items), None)
              && forall n :: 0 <= n < |newSent| ==> newSent[n].ifNoneMatch == None
  {
    updatesSent, newSent := [], [];
    var listResult, listSent := GetUpdatedKanjiAssignments(config, listRs);
    if listResult.Failure? {
      return Some(listResult.error), updatesSent, newSent;
    }
    var list := listResult.value;
    var previousIds := config.kanjiListCache.definitions.Keys;
    var allIds := list.items + previousIds;
    var defsResult;
    defsResult, updatesSent := GetKanjiDefinitions(config, allIds, UpdatedKanji, defsRs);
    if defsResult.Failure? {
      return Some(defsResult.error), updatesSent, newSent;
    }
    var defs := defsResult.value;
    var missingIds := MissingIds(list.items, defs.items);
    var defsNew: map<string, string> := map[];
    if missingIds != {} {
      var newResult;
      newResult, newSent := GetKanjiDefinitions(config, missingIds, NewKanji, newRs);
      if newResult.Failure? {
        return Some(newResult.error), updatesSent, newSent;
      }
      defsNew := newResult.value.items;
    }
    Store(config, list, defs, defsNew);
    error := None;
  }

  /** The writes `update_unlocked_kanji` ends with, one field at a time, into
      the cache the config owns. */
  method Store(config: Config, list: Fetched<set<string>>, defs: Fetched<map<string, string>>,
               defsNew: map<string, string>)
    modifies config
    ensures config.wkApiKey == old(config.wkApiKey)
    ensures config.kanjiGlobalQuery == old(config.kanjiGlobalQuery)
    ensures config.kanjiIndividualQuery == old(config.kanjiIndividualQuery)
    ensures config.kanjiListCache == WriteBack(old(config.kanjiListCache), list, defs, defsNew)
  {
    if Truthy(list.updated) {
      config.kanjiListCache := config.kanjiListCache.(lastListUpdate := list.updated);
    }
    if Truthy(list.etag) {
      config.kanjiListCache := config.kanjiListCache.(lastListEtag := list.etag);
    }
    if Truthy(defs.updated) {
      config.kanjiListCache := config.kanjiListCache.(lastDefinitionUpdate := defs.updated);
    }
    if Truthy(defs.etag) {
      config.kanjiListCache := config.kanjiListCache.(lastDefinitionEtag := defs.etag);
    }
    if defs.items != map[] {
      config.kanjiListCache := config.kanjiListCache.(definitions := config.kanjiListCache.definitions + defs.items);
    }
    if defsNew != map[] {
      config.kanjiListCache := config.kanjiListCache.(definitions := config.kanjiListCache.definitions + defsNew);
    }
  }

  // ----- properties of a pass -----

  /** A pass in which both conditional requests come back 304 changes nothing
      and makes no follow-up request: a second pass with no remote change
      leaves the cache exactly as the first one left it. */
  lemma NotModifiedPassKeepsCache(cache: KanjiListCache, listRs: seq<Response<Assignment>>,
                                  defsRs: seq<Response<Subject>>, newRs: seq<Response<Subject>>)
    requires |listRs| > 0 && listRs[0] == HttpError(NOT_MODIFIED)
    requires |defsRs| > 0 && defsRs[0] == HttpError(NOT_MODIFIED)
    ensures MissingIds(AssignmentsFetch(listRs).value.items, DefinitionsFetch(defsRs).value.items) == {}
    ensures Reconcile(cache, listRs, defsRs, newRs) == Success(cache)
  {
    NotModifiedDiscardsAssignments(listRs, 0);
    NotModifiedDiscardsDefinitions(defsRs, 0);
  }

  /** Once the assignment and incremental walks are known, the follow-up script
      matters only when some id is missing. */
  lemma FollowUpOnlyWhenMissing(cache: KanjiListCache, listRs: seq<Response<Assignment>>,
                                defsRs: seq<Response<Subject>>, newRs1: seq<Response<Subject>>,
                                newRs2: seq<Response<Subject>>)
    requires AssignmentsFetch(listRs).Success? && DefinitionsFetch(defsRs).Success?
    requires MissingIds(AssignmentsFetch(listRs).value.items, DefinitionsFetch(defsRs).value.items) == {}
    ensures Reconcile(cache, listRs, defsRs, newRs1) == Reconcile(cache, listRs, defsRs, newRs2)
  {
  }

  /** The follow-up walk contributes definitions only: whatever ETag and
      timestamp it reports, the watermarks come out the same. */
  lemma FollowUpWatermarksDiscarded(cache: KanjiListCache, listRs: seq<Response<Assignment>>,
                                    defsRs: seq<Response<Subject>>, newRs1: seq<Response<Subject>>,
                                    newRs2: seq<Response<Subject>>)
    requires Reconcile(cache, listRs, defsRs, newRs1).Success?
    requires Reconcile(cache, listRs, defsRs, newRs2).Success?
    ensures var c1 := Reconcile(cache, listRs, defsRs, newRs1).value;
            var c2 := Reconcile(cache, listRs, defsRs, newRs2).value;
            && c1.lastListEtag == c2.lastListEtag && c1.lastListUpdate == c2.lastListUpdate
            && c1.lastDefinitionEtag == c2.lastDefinitionEtag && c1.lastDefinitionUpdate == c2.lastDefinitionUpdate
  {
  }

  /** Writing the same fetch results back a second time changes nothing. */
  lemma WriteBackIdempotent(cache: KanjiListCache, list: Fetched<set<string>>,
                            defs: Fetched<map<string, string>>, defsNew: map<string, string>)
    ensures WriteBack(WriteBack(cache, list, defs, defsNew), list, defs, defsNew) == WriteBack(cache, list, defs, defsNew)
  {
    var once := WriteBack(cache, list, defs, defsNew);
    var twice := WriteBack(once, list, defs, defsNew);
    assert twice.definitions == once.definitions;
  }

  /** Every id the assignment feed reports ends up with a definition, provided
      the follow-up walk answers for every id it was asked about. */
  lemma ReportedIdsGetDefinitions(cache: KanjiListCache, listRs: seq<Response<Assignment>>,
                                  defsRs: seq<Response<Subject>>, newRs: seq<Response<Subject>>)
    requires AssignmentsFetch(listRs).Success? && DefinitionsFetch(defsRs).Success?
    requires var missing := MissingIds(AssignmentsFetch(listRs).value.items, DefinitionsFetch(defsRs).value.items);
             missing != {} ==> DefinitionsFetch(newRs).Success? && missing <= DefinitionsFetch(newRs).value.items.Keys
    ensures Reconcile(cache, listRs, defsRs, newRs).Success?
    ensures AssignmentsFetch(listRs).value.items <= Reconcile(cache, listRs, defsRs, newRs).value.definitions.Keys
  {
  }

  /** No pass loses a cached definition: the keys only grow. */
  lemma PassKeepsCachedIds(cache: KanjiListCache, listRs: seq<Response<Assignment>>,
                           defsRs: seq<Response<Subject>>, newRs: seq<Response<Subject>>)
    requires Reconcile(cache, listRs, defsRs, newRs).Success?
    ensures cache.definitions.Keys <= Reconcile(cache, listRs, defsRs, newRs).value.definitions.Keys
  {
  }
}
