/** The in-memory store that analysers append their results to: a map from
    category name to the list of records stored under it, oldest first. */
module DataStorage {
  import opened Wrappers

  /** The four categories the store starts with. */
  const InitialCategories: set<string> :=
    {"login_analysis", "network_analysis", "service_impact_analysis", "mdp_decision"}

  datatype Storage<T> = Storage(data: map<string, seq<T>>)

  /** A fresh store: the four known categories, each empty. */
  function New<T>(): (st: Storage<T>)
    ensures st.data.Keys == InitialCategories
    ensures forall c | c in st.data :: st.data[c] == []
  {
    Storage(map c | c in InitialCategories :: [])
  }

  /** The records of `category`, or none if the category is unknown. */
  function Records<T>(st: Storage<T>, category: string): seq<T> {
    if category in st.data then st.data[category] else []
  }

  /** Appends `x` to `category`, creating the category if it is new. */
  function Store<T>(st: Storage<T>, category: string, x: T): (r: Storage<T>)
    ensures r.data.Keys == st.data.Keys + {category}
    ensures Records(r, category) == Records(st, category) + [x]
    ensures forall c | c != category :: Records(r, c) == Records(st, c)
  {
    if category in st.data then
      Storage(st.data[category := st.data[category] + [x]])
    else
      Storage(st.data[category := [x]])
  }

  /** Python's `xs[start:]`: a negative start counts from the end, and both
      kinds are clamped to the bounds of the list. */
  function SliceFrom<T>(xs: seq<T>, start: int): (r: seq<T>)
    ensures start >= 0 ==> r == xs[if start <= |xs| then start else |xs|..]
    ensures start < 0 ==> r == xs[if -start <= |xs| then |xs| + start else 0..]
  {
    var n := if start < 0 then (if |xs| + start < 0 then 0 else |xs| + start)
             else (if start > |xs| then |xs| else start);
    xs[n..]
  }

  function Min(a: int, b: int): int {
    if a <= b then a else b
  }

  /** `retrieve(category, limit)`: an unknown category gives no records; a
      missing or zero limit gives them all; otherwise the result is
      `records[-limit:]`. */
  function Retrieve<T>(st: Storage<T>, category: string, limit: Option<int>): (r: seq<T>)
    ensures category !in st.data ==> r == []
    ensures limit == None || limit == Some(0) ==> r == Records(st, category)
  {
    if category !in st.data then []
    else if limit.None? || limit.value == 0 then st.data[category]
    else SliceFrom(st.data[category], -limit.value)
  }

  /** A positive limit keeps the newest `limit` records, in their stored order. */
  lemma RetrievePositiveLimit<T>(st: Storage<T>, category: string, k: int)
    requires 0 < k
    ensures var xs := Records(st, category);
            var r := Retrieve(st, category, Some(k));
            |r| == Min(k, |xs|) && r == xs[|xs| - |r|..]
  {
  }

  /** A negative limit, through Python's slice rules, drops the oldest `-limit`
      records instead. */
  lemma RetrieveNegativeLimit<T>(st: Storage<T>, category: string, k: int)
    requires k < 0
    ensures var xs := Records(st, category);
            var r := Retrieve(st, category, Some(k));
            |r| == |xs| - Min(-k, |xs|) && r == xs[Min(-k, |xs|)..]
  {
  }

  /** `retrieve_latest`: the newest record of `category`, if it has any. */
  function RetrieveLatest<T>(st: Storage<T>, category: string): (r: Option<T>)
    ensures r.None? <==> Records(st, category) == []
    ensures r.Some? ==> r.value == Records(st, category)[|Records(st, category)| - 1]
  {
    var items := Retrieve(st, category, Some(1));
    if items != [] then Some(items[0]) else None
  }

  /** After storing `x`, the newest record of that category is `x`. */
  lemma LatestAfterStore<T>(st: Storage<T>, category: string, x: T)
    ensures RetrieveLatest(Store(st, category, x), category) == Some(x)
  {
  }

  /** Storing never removes or reorders records: the old records of every
      category are a prefix of the new ones. */
  lemma StoreKeepsHistory<T>(st: Storage<T>, category: string, x: T, c: string)
    ensures Records(st, c) <= Records(Store(st, category, x), c)
  {
  }
}
