/**
 * The grid model (`Dcat\Admin\Grid\Model`): it records every query-builder
 * call as a `['method' => ..., 'arguments' => [...]]` entry in an ordered
 * collection, edits that collection (append, reject, filter, deduplicate,
 * eager-load relations) and keeps the pagination and sort parameters read
 * from the request. Replaying the recorded calls against the ORM is not
 * part of this model.
 */
module GridModel {
  import opened Php

  /** One recorded builder call: the method name and its arguments. */
  datatype Query = Query(name: string, arguments: seq<Value>)

  /** A recorded call together with the key the collection holds it under. */
  datatype Slot = Slot(key: nat, query: Query)

  /** `filterQueryBy`'s argument: a method name, a list of names, or a callable given the query and its key. */
  datatype Filter =
    | Except(name: string)
    | ExceptAny(names: seq<string>)
    | KeepWhen(keep: (Query, nat) -> bool)

  /** `rejectQuery`'s argument: a name or list of names, or a callable given the query. */
  datatype Rejection =
    | RejectNames(names: seq<string>)
    | RejectWhen(reject: Query -> bool)

  /** What `setData` can be given; the items are the collection's entries. */
  datatype Incoming =
    | Callable
    | Paginator(items: seq<Entry>)
    | Collection(items: seq<Entry>)
    | Arrayable(items: seq<Entry>)
    | Plain(v: Value)

  /** The collection's keys only grow from front to back. */
  ghost predicate Ascending(s: seq<Slot>) {
    forall i, j :: 0 <= i < j < |s| ==> s[i].key < s[j].key
  }

  function QueriesOf(s: seq<Slot>): (r: seq<Query>)
    ensures |r| == |s|
    ensures forall i :: 0 <= i < |s| ==> r[i] == s[i].query
  {
    seq(|s|, i requires 0 <= i < |s| => s[i].query)
  }

  /** PHP's next free integer key of an array built by `array_filter`. */
  function NextKeyAfter(s: seq<Slot>): (r: nat)
    ensures s == [] ==> r == 0
    // with ascending keys, the next key is above every key in use
    ensures Ascending(s) ==> forall i :: 0 <= i < |s| ==> s[i].key < r
  {
    if s == [] then 0 else s[|s| - 1].key + 1
  }

  // ---------------------------------------------------------------------
  // Filtering (`Collection::filter` / `reject`)

  /** The entries for which `keep` holds, in their original order and with their keys. */
  function Keep(s: seq<Slot>, keep: Slot -> bool): (r: seq<Slot>)
    ensures |r| <= |s|
  {
    if s == [] then [] else (if keep(s[0]) then [s[0]] else []) + Keep(s[1..], keep)
  }

  /** An entry survives exactly when it was there and passes the test. */
  lemma {:induction false} KeepMembers(s: seq<Slot>, keep: Slot -> bool, x: Slot)
    ensures x in Keep(s, keep) <==> x in s && keep(x)
  {
    if s != [] {
      KeepMembers(s[1..], keep, x);
      assert s == [s[0]] + s[1..];
    }
  }

  /** Filtering a concatenation filters each part: relative order is kept. */
  lemma {:induction false} KeepAppend(a: seq<Slot>, b: seq<Slot>, keep: Slot -> bool)
    ensures Keep(a + b, keep) == Keep(a, keep) + Keep(b, keep)
  {
    if a != [] {
      KeepAppend(a[1..], b, keep);
      assert (a + b)[1..] == a[1..] + b;
    } else {
      assert a + b == b;
    }
  }

  lemma {:induction false} KeepAscending(s: seq<Slot>, keep: Slot -> bool)
    requires Ascending(s)
    ensures Ascending(Keep(s, keep))
  {
    if s != [] {
      KeepAscending(s[1..], keep);
      var rest := Keep(s[1..], keep);
      forall y | y in rest ensures s[0].key < y.key {
        KeepMembers(s[1..], keep, y);
      }
    }
  }

  /** The test `filterQueryBy` applies to each entry. */
  function FilterKeeps(f: Filter, s: Slot): (r: bool)
    ensures f.Except? ==> (r <==> s.query.name != f.name)
    ensures f.ExceptAny? ==> (r <==> forall i :: 0 <= i < |f.names| ==> f.names[i] != s.query.name)
    ensures f.KeepWhen? ==> r == f.keep(s.query, s.key)
  {
    match f
    case Except(n) => s.query.name != n
    case ExceptAny(ns) => s.query.name !in ns
    case KeepWhen(p) => p(s.query, s.key)
  }

  function FilterTest(f: Filter): Slot -> bool {
    s => FilterKeeps(f, s)
  }

  /** The test `rejectQuery` applies to each entry (true keeps it). */
  function RejectKeeps(r: Rejection, s: Slot): (b: bool)
    // rejecting names is filtering them out; rejecting with a callable keeps what it refuses
    ensures r.RejectNames? ==> b == FilterKeeps(ExceptAny(r.names), s)
    ensures r.RejectWhen? ==> b == FilterKeeps(KeepWhen((q, k) => !r.reject(q)), s)
  {
    match r
    case RejectNames(ns) => s.query.name !in ns
    case RejectWhen(p) => !p(s.query)
  }

  function RejectTest(r: Rejection): Slot -> bool {
    s => RejectKeeps(r, s)
  }

  /** `filterQueryBy` with names drops exactly the entries with those names. */
  lemma {:induction false} FilterByNamesExactly(s: seq<Slot>, names: seq<string>, x: Slot)
    ensures x in Keep(s, FilterTest(ExceptAny(names))) <==> x in s && x.query.name !in names
  {
    KeepMembers(s, FilterTest(ExceptAny(names)), x);
  }

  /** `filterQueryBy` with a callable keeps exactly the entries it accepts. */
  lemma {:induction false} FilterByCallableExactly(s: seq<Slot>, p: (Query, nat) -> bool, x: Slot)
    ensures x in Keep(s, FilterTest(KeepWhen(p))) <==> x in s && p(x.query, x.key)
  {
    KeepMembers(s, FilterTest(KeepWhen(p)), x);
  }

  /** `rejectQuery` with names removes exactly the entries with those names. */
  lemma {:induction false} RejectNamesExactly(s: seq<Slot>, names: seq<string>, x: Slot)
    ensures x in Keep(s, RejectTest(RejectNames(names))) <==> x in s && x.query.name !in names
  {
    KeepMembers(s, RejectTest(RejectNames(names)), x);
  }

  // ---------------------------------------------------------------------
  // Deduplication (`Collection::unique`)

  ghost predicate Distinct(s: seq<Slot>) {
    forall i, j :: 0 <= i < j < |s| ==> s[i].query != s[j].query
  }

  /** Keeps the first entry of each query not already in `seen`, in order, with its key. */
  function Dedup(s: seq<Slot>, seen: set<Query>): (r: seq<Slot>)
    ensures |r| <= |s|
  {
    if s == [] then []
    else if s[0].query in seen then Dedup(s[1..], seen)
    else [s[0]] + Dedup(s[1..], seen + {s[0].query})
  }

  /** What deduplication keeps comes from the input, is new and is without repeats. */
  lemma {:induction false} DedupSound(s: seq<Slot>, seen: set<Query>)
    ensures forall x :: x in Dedup(s, seen) ==> x in s && x.query !in seen
    ensures Distinct(Dedup(s, seen))
  {
    if s != [] {
      if s[0].query in seen {
        DedupSound(s[1..], seen);
      } else {
        DedupSound(s[1..], seen + {s[0].query});
      }
    }
  }

  /** Every query of the input that is not in `seen` is still present. */
  lemma {:induction false} DedupComplete(s: seq<Slot>, seen: set<Query>, i: nat)
    requires i < |s| && s[i].query !in seen
    ensures exists y :: y in Dedup(s, seen) && y.query == s[i].query
  {
    if i == 0 {
      assert s[0] in Dedup(s, seen);
    } else if s[0].query in seen {
      assert s[1..][i - 1] == s[i];
      DedupComplete(s[1..], seen, i - 1);
    } else if s[0].query == s[i].query {
      assert s[0] in Dedup(s, seen);
    } else {
      assert s[1..][i - 1] == s[i];
      DedupComplete(s[1..], seen + {s[0].query}, i - 1);
    }
  }

  /** The entry kept for a query is its first occurrence. */
  lemma {:induction false} DedupKeepsFirst(s: seq<Slot>, seen: set<Query>, i: nat)
    requires i < |s| && s[i].query !in seen
    requires forall j :: 0 <= j < i ==> s[j].query != s[i].query
    ensures s[i] in Dedup(s, seen)
  {
    if i > 0 {
      assert s[1..][i - 1] == s[i];
      if s[0].query in seen {
        DedupKeepsFirst(s[1..], seen, i - 1);
      } else {
        DedupKeepsFirst(s[1..], seen + {s[0].query}, i - 1);
      }
    }
  }

  /** A list that is already without repeats (and new) is left as it is. */
  lemma {:induction false} DedupOfDistinct(s: seq<Slot>, seen: set<Query>)
    requires Distinct(s)
    requires forall x :: x in s ==> x.query !in seen
    ensures Dedup(s, seen) == s
  {
    if s != [] {
      assert forall x :: x in s[1..] ==> x.query !in seen + {s[0].query} by {
        forall x | x in s[1..] ensures x.query !in seen + {s[0].query} {
          var j :| 0 <= j < |s[1..]| && s[1..][j] == x;
          assert s[j + 1] == x;
        }
      }
      DedupOfDistinct(s[1..], seen + {s[0].query});
    }
  }

  /** `getQueries` is idempotent: deduplicating twice is deduplicating once. */
  lemma {:induction false} DedupIdempotent(s: seq<Slot>)
    ensures Dedup(Dedup(s, {}), {}) == Dedup(s, {})
  {
    DedupSound(s, {});
    DedupOfDistinct(Dedup(s, {}), {});
  }

  lemma {:induction false} DedupAscending(s: seq<Slot>, seen: set<Query>)
    requires Ascending(s)
    ensures Ascending(Dedup(s, seen))
  {
    if s != [] {
      var seen' := if s[0].query in seen then seen else seen + {s[0].query};
      DedupAscending(s[1..], seen');
      DedupSound(s[1..], seen');
    }
  }

  // ---------------------------------------------------------------------
  // Lookup (`Collection::first`)

  /** The query of the first entry whose method is `name`, if any. */
  function First(s: seq<Slot>, name: string): (r: Option<Query>)
    ensures r.None? <==> forall i :: 0 <= i < |s| ==> s[i].query.name != name
    ensures r.Some? ==> r.value.name == name
  {
    if s == [] then None
    else if s[0].query.name == name then Some(s[0].query)
    else
      var r := First(s[1..], name);
      assert forall i :: 1 <= i < |s| ==> s[i] == s[1..][i - 1];
      r
  }

  /** The query found is the one at the earliest matching position. */
  lemma {:induction false} FirstIsEarliest(s: seq<Slot>, name: string, i: nat)
    requires i < |s| && s[i].query.name == name
    requires forall j :: 0 <= j < i ==> s[j].query.name != name
    ensures First(s, name) == Some(s[i].query)
  {
    if i > 0 {
      assert s[1..][i - 1] == s[i];
      FirstIsEarliest(s[1..], name, i - 1);
    }
  }

  /** What is found is the query of some entry. */
  lemma {:induction false} FirstFound(s: seq<Slot>, name: string)
    ensures First(s, name).Some? ==> exists i :: 0 <= i < |s| && s[i].query == First(s, name).value
  {
    if s != [] && s[0].query.name != name {
      FirstFound(s[1..], name);
      if First(s, name).Some? {
        var i :| 0 <= i < |s[1..]| && s[1..][i].query == First(s[1..], name).value;
        assert s[i + 1] == s[1..][i];
      }
    }
  }

  // ---------------------------------------------------------------------
  // Eager-load relation names and the sort pair

  /** `with`'s name normalisation: cut at the first `.`, then at the first `:`. */
  function RelationName(s: string): (r: string)
    ensures r <= s
    ensures '.' !in r && ':' !in r
    ensures '.' !in s && ':' !in s ==> r == s
    // the cut stops at the first separator
    ensures |r| < |s| ==> s[|r|] == '.' || s[|r|] == ':'
  {
    var a := if '.' in s then Head(s, '.') else s;
    if ':' in a then Head(a, ':') else a
  }

  /** A relation path is cut at its first `.` and a column list at its `:`. */
  lemma RelationNameExamples()
    ensures RelationName("ab.c") == "ab"
    ensures RelationName("ab:c") == "ab"
  {
    var r := RelationName("ab.c");
    assert r != "ab.c" && r != "ab." && r != "a" && r != "";
    var q := RelationName("ab:c");
    assert q != "ab:c" && q != "ab:" && q != "a" && q != "";
  }

  /** The relation names `with` records for an array: its keys when associative, else its values. */
  function ArrayRelations(es: seq<Entry>): (r: seq<Value>)
    ensures |r| == |es|
    ensures IsList(es) ==> forall i :: 0 <= i < |es| ==> r[i] == es[i].val
    ensures !IsList(es) ==> forall i :: 0 <= i < |es| ==> r[i] == KeyValue(es[i].key)
  {
    if IsList(es) then ValuesOf(es) else KeysOf(es)
  }

  /** `getSort`'s result for a sort value: a pair only when both column and type are set. */
  function SortPair(sort: Value): (r: (Value, Value))
    ensures r == (Null, Null) <==> !Truthy(Index(sort, "column")) || !Truthy(Index(sort, "type"))
    ensures r != (Null, Null) ==> r.0 == Index(sort, "column") && r.1 == Index(sort, "type")
  {
    if !Truthy(Index(sort, "column")) || !Truthy(Index(sort, "type")) then (Null, Null)
    else (Index(sort, "column"), Index(sort, "type"))
  }

  // ---------------------------------------------------------------------

  class Model {
    /** The request's query parameters. */
    const request: map<string, Value>
    /** The names the grid gives the sort, page and per-page parameters. */
    const sortName: string
    const pageName: string
    const perPageName: string

    var queries: seq<Slot>
    /** The key the collection gives the next pushed entry. */
    var nextKey: nat
    var eagerLoads: seq<Value>
    var sort: Value
    var perPage: int
    var currentPage: Value
    var usePaginate: bool
    var data: Option<Value>
    var hasBuilder: bool
    var hasPaginator: bool

    ghost predicate Valid()
      reads this
    {
      && Ascending(queries)
      && forall i :: 0 <= i < |queries| ==> queries[i].key < nextKey
    }

    /** The recorded calls in order. */
    function Queries(): seq<Query>
      reads this
    {
      QueriesOf(queries)
    }

    function RequestGet(name: string): Value {
      if name in request then request[name] else Null
    }

    constructor (request: map<string, Value>, sortName: string, pageName: string, perPageName: string)
      ensures Valid()
      ensures this.request == request && this.sortName == sortName
      ensures this.pageName == pageName && this.perPageName == perPageName
      ensures queries == [] && nextKey == 0 && eagerLoads == []
      ensures sort == Null && perPage == 20 && currentPage == Null && usePaginate
      ensures data == None && !hasBuilder && !hasPaginator
    {
      this.request := request;
      this.sortName := sortName;
      this.pageName := pageName;
      this.perPageName := perPageName;
      queries := [];
      nextKey := 0;
      eagerLoads := [];
      sort := Null;
      perPage := 20;
      currentPage := Null;
      usePaginate := true;
      data := None;
      hasBuilder := false;
      hasPaginator := false;
    }

    /** Appends one entry at the end; earlier entries are unchanged. */
    method AddQuery(name: string, arguments: seq<Value>)
      requires Valid()
      modifies this`queries, this`nextKey
      ensures Valid()
      ensures queries == old(queries) + [Slot(old(nextKey), Query(name, arguments))]
      ensures nextKey == old(nextKey) + 1
      ensures Queries() == old(Queries()) + [Query(name, arguments)]
    {
      queries := queries + [Slot(nextKey, Query(name, arguments))];
      nextKey := nextKey + 1;
    }

    /** Any other method called on the model is recorded (`__call`). */
    method Call(name: string, arguments: seq<Value>)
      requires Valid()
      modifies this`queries, this`nextKey
      ensures Valid()
      ensures queries == old(queries) + [Slot(old(nextKey), Query(name, arguments))]
      ensures Queries() == old(Queries()) + [Query(name, arguments)]
      ensures nextKey == old(nextKey) + 1
    {
      AddQuery(name, arguments);
    }

    /** Deduplicates the recorded calls, keeping first occurrences, and returns them. */
    method GetQueries() returns (r: seq<Query>)
      requires Valid()
      modifies this`queries
      ensures Valid()
      ensures queries == Dedup(old(queries), {})
      ensures r == Queries()
    {
      DedupAscending(queries, {});
      DedupSound(queries, {});
      queries := Dedup(queries, {});
      r := Queries();
    }

    method FilterQueryBy(f: Filter)
      requires Valid()
      modifies this`queries, this`nextKey
      ensures Valid()
      ensures queries == Keep(old(queries), FilterTest(f))
      ensures nextKey == NextKeyAfter(queries)
    {
      KeepAscending(queries, FilterTest(f));
      queries := Keep(queries, FilterTest(f));
      nextKey := NextKeyAfter(queries);
    }

    method RejectQuery(r: Rejection)
      requires Valid()
      modifies this`queries, this`nextKey
      ensures Valid()
      ensures queries == Keep(old(queries), RejectTest(r))
      ensures nextKey == NextKeyAfter(queries)
    {
      KeepAscending(queries, RejectTest(r));
      queries := Keep(queries, RejectTest(r));
      nextKey := NextKeyAfter(queries);
    }

    /** Removes the `orderBy` and `orderByDesc` calls and nothing else. */
    method ResetOrderBy()
      requires Valid()
      modifies this`queries, this`nextKey
      ensures Valid()
      ensures queries == Keep(old(queries), RejectTest(RejectNames(["orderBy", "orderByDesc"])))
      ensures nextKey == NextKeyAfter(queries)
      ensures forall x :: x in queries <==> x in old(queries) && x.query.name != "orderBy" && x.query.name != "orderByDesc"
    {
      ghost var before := queries;
      RejectQuery(RejectNames(["orderBy", "orderByDesc"]));
      forall x ensures x in queries <==> x in before && x.query.name != "orderBy" && x.query.name != "orderByDesc" {
        RejectNamesExactly(before, ["orderBy", "orderByDesc"], x);
      }
    }

    /** The first recorded call with the given method name. */
    function FindQueryByMethod(name: string): (r: Option<Query>)
      reads this
      ensures r.None? <==> forall i :: 0 <= i < |queries| ==> queries[i].query.name != name
      ensures r.Some? ==> r.value.name == name && exists i :: 0 <= i < |queries| && queries[i].query == r.value
    {
      FirstFound(queries, name);
      First(queries, name)
    }

    /** Records eager-load relations; a repeated single name changes nothing. */
    method With(relations: Value)
      requires Valid()
      modifies this`eagerLoads, this`queries, this`nextKey
      ensures Valid()
      ensures relations.Str? && Str(RelationName(relations.s)) in old(eagerLoads) ==>
        eagerLoads == old(eagerLoads) && queries == old(queries) && nextKey == old(nextKey)
      ensures relations.Str? && Str(RelationName(relations.s)) !in old(eagerLoads) ==>
        && eagerLoads == old(eagerLoads) + [Str(RelationName(relations.s))]
        && queries == old(queries) + [Slot(old(nextKey), Query("with", [Str(RelationName(relations.s))]))]
        && nextKey == old(nextKey) + 1
      ensures relations.Arr? ==>
        && eagerLoads == old(eagerLoads) + ArrayRelations(relations.entries)
        && queries == old(queries) + [Slot(old(nextKey), Query("with", ArrayRelations(relations.entries)))]
        && nextKey == old(nextKey) + 1
      ensures !relations.Str? && !relations.Arr? ==>
        && eagerLoads == old(eagerLoads)
        && queries == old(queries) + [Slot(old(nextKey), Query("with", CastToList(relations)))]
        && nextKey == old(nextKey) + 1
    {
      match relations
      case Arr(es) =>
        var names := ArrayRelations(es);
        eagerLoads := eagerLoads + names;
        AddQuery("with", names);
      case Str(s) =>
        var name := RelationName(s);
        if Str(name) in eagerLoads {
          return;
        }
        eagerLoads := eagerLoads + [Str(name)];
        AddQuery("with", [Str(name)]);
      case _ =>
        AddQuery("with", CastToList(relations));
    }

    /** Reads the sort from the request while it is still empty, then gives `[column, type]`. */
    method GetSort() returns (r: (Value, Value))
      modifies this`sort
      ensures sort == if Truthy(old(sort)) then old(sort) else RequestGet(sortName)
      ensures r == SortPair(sort)
    {
      if !Truthy(sort) {
        sort := RequestGet(sortName);
      }
      r := SortPair(sort);
    }

    /** Rows per page: null without pagination, else the request's value or the default. */
    function PerPage(): (r: Value)
      reads this
      ensures r == Null <==> !usePaginate
      ensures usePaginate ==> r == RequestGet(perPageName) || r == Int(perPage)
      ensures usePaginate && Truthy(RequestGet(perPageName)) ==> r == RequestGet(perPageName)
      ensures usePaginate && !Truthy(RequestGet(perPageName)) ==> r == Int(perPage)
    {
      if !usePaginate then Null
      else if Truthy(RequestGet(perPageName)) then RequestGet(perPageName)
      else Int(perPage)
    }

    method SetPerPage(n: int)
      modifies this`perPage
      ensures perPage == n
    {
      perPage := n;
    }

    /** The current page: null without pagination, else cached after the first non-zero read. */
    method GetCurrentPage() returns (r: Value)
      modifies this`currentPage
      ensures r == Null <==> !usePaginate
      ensures !usePaginate ==> currentPage == old(currentPage)
      ensures usePaginate ==> Truthy(r) && currentPage == r
      ensures usePaginate && Truthy(old(currentPage)) ==> r == old(currentPage)
      ensures usePaginate && !Truthy(old(currentPage)) ==>
        r == if Truthy(RequestGet(pageName)) then RequestGet(pageName) else Int(1)
    {
      if !usePaginate {
        return Null;
      }
      if !Truthy(currentPage) {
        currentPage := if Truthy(RequestGet(pageName)) then RequestGet(pageName) else Int(1);
      }
      r := currentPage;
    }

    method SetCurrentPage(n: int)
      modifies this`currentPage
      ensures currentPage == Int(n)
    {
      currentPage := Int(n);
    }

    method UsePaginate(use: bool)
      modifies this`usePaginate
      ensures usePaginate == use
    {
      usePaginate := use;
    }

    /** Normalises what it is given into the data collection (or keeps a builder callable). */
    method SetData(d: Incoming)
      modifies this`data, this`hasBuilder, this`hasPaginator
      ensures d.Callable? ==> hasBuilder && data == old(data) && hasPaginator == old(hasPaginator)
      ensures !d.Callable? ==> hasBuilder == old(hasBuilder)
      ensures d.Paginator? ==> hasPaginator && data == Some(Arr(d.items))
      ensures (d.Collection? || d.Arrayable?) ==> data == Some(Arr(d.items)) && hasPaginator == old(hasPaginator)
      ensures d.Plain? ==>
        && hasPaginator == old(hasPaginator)
        && data == Some(if d.v.Arr? then d.v else Arr([]))
    {
      match d
      case Callable =>
        hasBuilder := true;
      case Paginator(items) =>
        hasPaginator := true;
        data := Some(Arr(items));
      case Collection(items) =>
        data := Some(Arr(items));
      case Arrayable(items) =>
        data := Some(Arr(items));
      case Plain(v) =>
        data := Some(if v.Arr? then v else Arr([]));
    }

    /** Drops the data and the recorded calls; relations, sort and paging are kept. */
    method Reset()
      modifies this`data, this`queries, this`nextKey
      ensures Valid()
      ensures data == None && queries == [] && nextKey == 0
    {
      data := None;
      queries := [];
      nextKey := 0;
    }
  }
}
