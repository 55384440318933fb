/** The add-on's `Config` (addon/__init__.py:147-184) as far as the sync core
    uses it: the API key, the two search templates and the owned cache, and
    the search string built from the cached definitions. */
module Settings {
  import opened Common
  import opened Cache

  /** A `str.format` template holding one `{kanji}` placeholder, split at it. */
  datatype Template = Template(prefix: string, suffix: string)

  /** `template.format(kanji=x)`. */
  function Format(t: Template, x: string): string
  {
    t.prefix + x + t.suffix
  }

  /** `sep.join(xs)`. */
  function Join(sep: string, xs: seq<string>): string
  {
    if |xs| == 0 then ""
    else if |xs| == 1 then xs[0]
    else xs[0] + sep + Join(sep, xs[1..])
  }

  function TotalLength(xs: seq<string>): nat
  {
    if |xs| == 0 then 0 else |xs[0]| + TotalLength(xs[1..])
  }

  /** `w` is the piece of `s` that starts at offset `p`. */
  ghost predicate OccursAt(w: string, s: string, p: int)
  {
    0 <= p && p + |w| <= |s| && s[p..p + |w|] == w
  }

  /** `w` is a contiguous piece of `s`. */
  ghost predicate OccursIn(w: string, s: string)
  {
    exists p :: OccursAt(w, s, p)
  }

  lemma {:induction false} JoinLength(sep: string, xs: seq<string>)
    ensures |xs| == 0 ==> Join(sep, xs) == ""
    ensures |xs| > 0 ==> |Join(sep, xs)| == TotalLength(xs) + (|xs| - 1) * |sep|
  {
    if |xs| > 1 {
      JoinLength(sep, xs[1..]);
    }
  }

  lemma {:induction false} JoinContains(sep: string, xs: seq<string>, i: nat)
    requires i < |xs|
    ensures OccursIn(xs[i], Join(sep, xs))
  {
    var j := Join(sep, xs);
    if i == 0 {
      assert OccursAt(xs[0], j, 0);
    } else {
      JoinContains(sep, xs[1..], i - 1);
      var rest := Join(sep, xs[1..]);
      var p :| OccursAt(xs[i], rest, p);
      var q := |xs[0]| + |sep| + p;
      assert j == (xs[0] + sep) + rest;
      assert j[q..q + |xs[i]|] == rest[p..p + |xs[i]|];
      assert OccursAt(xs[i], j, q);
    }
  }

  /** `keys` listed once each, in some order: the order in which the add-on's
      dictionary hands out its values. */
  ghost predicate Enumerates(order: seq<string>, keys: set<string>)
  {
    && (forall i, j :: 0 <= i < j < |order| ==> order[i] != order[j])
    && (forall k :: k in keys <==> k in order)
  }

  /** The individual template instantiated with each definition, in `order`. */
  function Terms(individual: Template, definitions: map<string, string>, order: seq<string>): (ts: seq<string>)
    requires forall k :: k in order ==> k in definitions
    ensures |ts| == |order|
    ensures forall i :: 0 <= i < |order| ==> ts[i] == Format(individual, definitions[order[i]])
  {
    if |order| == 0 then []
    else [Format(individual, definitions[order[0]])] + Terms(individual, definitions, order[1..])
  }

  /** `Config.kanji_query`: the global template around the `" or "`-join of the
      individual template instantiated once per cached definition. */
  function KanjiQuery(globalQuery: Template, individualQuery: Template,
                      definitions: map<string, string>, order: seq<string>): (q: string)
    requires Enumerates(order, definitions.Keys)
    ensures |q| >= |globalQuery.prefix| + |globalQuery.suffix|
    ensures q[..|globalQuery.prefix|] == globalQuery.prefix
    ensures q[|q| - |globalQuery.suffix|..] == globalQuery.suffix
    ensures definitions == map[] ==> q == globalQuery.prefix + globalQuery.suffix
  {
    Format(globalQuery, Join(" or ", Terms(individualQuery, definitions, order)))
  }

  /** Every cached definition contributes its instantiated individual template
      to the query. */
  lemma KanjiQueryMentionsEveryDefinition(globalQuery: Template, individualQuery: Template,
                                          definitions: map<string, string>, order: seq<string>, k: string)
    requires Enumerates(order, definitions.Keys)
    requires k in definitions
    ensures OccursIn(Format(individualQuery, definitions[k]), KanjiQuery(globalQuery, individualQuery, definitions, order))
  {
    var ts := Terms(individualQuery, definitions, order);
    var i :| 0 <= i < |order| && order[i] == k;
    JoinContains(" or ", ts, i);
    OccursInContext(ts[i], globalQuery.prefix, Join(" or ", ts), globalQuery.suffix);
  }

  lemma OccursInContext(w: string, a: string, s: string, b: string)
    requires OccursIn(w, s)
    ensures OccursIn(w, a + s + b)
  {
    var p :| OccursAt(w, s, p);
    var t := a + s + b;
    assert t[|a| + p..|a| + p + |w|] == s[p..p + |w|];
    assert OccursAt(w, t, |a| + p);
  }

  /** The query's length: both templates' text once per definition, the global
      one once, and four characters per `" or "` between definitions. */
  lemma KanjiQueryLength(globalQuery: Template, individualQuery: Template,
                         definitions: map<string, string>, order: seq<string>)
    requires Enumerates(order, definitions.Keys)
    ensures |KanjiQuery(globalQuery, individualQuery, definitions, order)| ==
            |globalQuery.prefix| + |globalQuery.suffix| +
            TotalLength(Terms(individualQuery, definitions, order)) +
            (if |order| == 0 then 0 else (|order| - 1) * 4)
  {
    JoinLength(" or ", Terms(individualQuery, definitions, order));
  }

  /** The parts of `Config` the sync core reads or updates. The search-speed
      switch is read only by the fast-search patch and by the sync report
      text, both outside this model. */
  class Config {
    var wkApiKey: string
    var kanjiGlobalQuery: Template
    var kanjiIndividualQuery: Template
    var kanjiListCache: KanjiListCache

    /** `Config(...)`: a missing cache (`from_json` answered `None`) is replaced
        by an empty one. */
    constructor (wkApiKey: string, kanjiGlobalQuery: Template, kanjiIndividualQuery: Template,
                 kanjiListCache: Option<KanjiListCache>)
      ensures this.wkApiKey == wkApiKey
      ensures this.kanjiGlobalQuery == kanjiGlobalQuery
      ensures this.kanjiIndividualQuery == kanjiIndividualQuery
      ensures kanjiListCache.Some? ==> this.kanjiListCache == kanjiListCache.value
      ensures kanjiListCache.None? ==> this.kanjiListCache == EmptyCache()
    {
      this.wkApiKey := wkApiKey;
      this.kanjiGlobalQuery := kanjiGlobalQuery;
      this.kanjiIndividualQuery := kanjiIndividualQuery;
      this.kanjiListCache := if kanjiListCache.Some? then kanjiListCache.value else EmptyCache();
    }
  }

  /** The cache a `Config` ends up owning when it is loaded from a stored cache
      entry: `from_json` of a falsy entry is `None`, which the constructor
      replaces by an empty cache. */
  function LoadedCache(j: Json): (c: KanjiListCache)
    requires WellFormed(j)
    ensures !JsonTruthy(j) ==> c == EmptyCache()
    ensures JsonTruthy(j) ==> Some(c) == FromJson(j)
  {
    var loaded := FromJson(j);
    if loaded.Some? then loaded.value else EmptyCache()
  }

  /** A saved cache is loaded back unchanged. */
  lemma SavedCacheLoadsBack(c: KanjiListCache)
    ensures LoadedCache(ToJson(c)) == c
  {
    RoundTrip(c);
  }
}
