/**
 * The placements collection as the handlers see it: an ordered sequence of
 * documents, matched against a filter, counted, and read through a
 * skip/limit window. Regular-expression matching is a parameter of the store.
 */
module Store {
  import opened Wrappers
  import opened Filters

  /** A stored field value: a number, a string, or anything else (dates, object ids). */
  datatype Field = Num(n: int) | Text(s: string) | Other

  /** A placement document: field name to value. */
  type Document = map<string, Field>

  /** `new RegExp(source, ci ? 'i' : '').test(subject)`, supplied by the environment. */
  type RegexTest = (string, bool, string) -> bool

  /** Why a store call failed. */
  datatype StoreError =
    | Unavailable(message: string)  // connection or execution failure, with the driver's message
    | NegativeSkip(skip: int)       // the server refuses a negative skip

  /**
   * The collection's documents in store order, the regex engine, and the fault (if
   * any) that each of the two calls a request makes runs into: the connection can
   * fail before the `find` or between the `find` and the count.
   */
  datatype Store = Store(
    records: seq<Document>,
    regexTest: RegexTest,
    findFault: Option<string>,
    countFault: Option<string>)

  /** Whether a stored field equals a filter value (NaN equals no stored number). */
  predicate ValMatches(f: Field, v: Val, test: RegexTest) {
    match v
    case Int(n) => f.Num? && n == Some(f.n)
    case Str(s) => f.Text? && f.s == s
    case Pat(source, ci) => f.Text? && test(source, ci, f.s)
  }

  /** A field constraint holds: equality for a bare value, any listed value for `$in`. */
  predicate ConstraintHolds(doc: Document, key: string, c: Constraint, test: RegexTest) {
    key in doc &&
    match c
    case Bare(v) => ValMatches(doc[key], v, test)
    case In(vals) => exists i :: 0 <= i < |vals| && ValMatches(doc[key], vals[i], test)
  }

  /** A document satisfies a filter when every constrained field holds. */
  predicate Satisfies(doc: Document, filter: Filter, test: RegexTest) {
    forall key :: key in filter ==> ConstraintHolds(doc, key, filter[key], test)
  }

  /** The documents that satisfy `filter`, in store order. */
  function Matching(records: seq<Document>, filter: Filter, test: RegexTest): (r: seq<Document>)
    ensures |r| <= |records|
    ensures forall i :: 0 <= i < |r| ==> r[i] in records && Satisfies(r[i], filter, test)
    ensures forall d :: d in records && Satisfies(d, filter, test) ==> d in r
  {
    if records == [] then []
    else
      var rest := Matching(records[1..], filter, test);
      if Satisfies(records[0], filter, test) then [records[0]] + rest else rest
  }

  /** A single document is kept exactly when it satisfies the filter. */
  lemma MatchingOne(d: Document, filter: Filter, test: RegexTest)
    ensures Matching([d], filter, test) == if Satisfies(d, filter, test) then [d] else []
  {
    assert [d][1..] == [];
  }

  /**
   * Matching works record by record: the matches of a concatenation are the
   * matches of each part, in store order, one entry per matching record.
   */
  lemma {:induction false} MatchingAppend(a: seq<Document>, b: seq<Document>, filter: Filter, test: RegexTest)
    ensures Matching(a + b, filter, test) == Matching(a, filter, test) + Matching(b, filter, test)
    decreases |a|
  {
    if a == [] {
      assert a + b == b;
    } else {
      assert (a + b)[0] == a[0];
      assert (a + b)[1..] == a[1..] + b;
      MatchingAppend(a[1..], b, filter, test);
    }
  }

  /** The matches among two documents. */
  lemma MatchingPair(d: Document, e: Document, filter: Filter, test: RegexTest)
    ensures Matching([d, e], filter, test) ==
      (if Satisfies(d, filter, test) then [d] else []) + (if Satisfies(e, filter, test) then [e] else [])
  {
    assert [d, e] == [d] + [e];
    MatchingAppend([d], [e], filter, test);
    MatchingOne(d, filter, test);
    MatchingOne(e, filter, test);
  }

  /** An empty filter constrains nothing: every document matches. */
  lemma {:induction false} EmptyFilterMatchesAll(records: seq<Document>, test: RegexTest)
    ensures Matching(records, map[], test) == records
  {
    if records != [] {
      EmptyFilterMatchesAll(records[1..], test);
      assert [records[0]] + records[1..] == records;
    }
  }

  /**
   * `.skip(skip).limit(limit)` on an ordered result: drop `skip` documents, then
   * keep at most `|limit|` (a negative limit is sent as its magnitude in a single
   * batch; a limit of 0 means no limit).
   */
  function Window(s: seq<Document>, skip: nat, limit: int): (r: seq<Document>)
    ensures forall i :: 0 <= i < |r| ==> skip + i < |s| && r[i] == s[skip + i]
    ensures limit != 0 ==> |r| == Min(Abs(limit), Rest(|s|, skip))
    ensures limit == 0 ==> |r| == Rest(|s|, skip)
  {
    var rest := if skip <= |s| then s[skip..] else [];
    var n := if limit == 0 then |rest| else Abs(limit);
    if n <= |rest| then rest[..n] else rest
  }

  function Abs(x: int): nat { if x < 0 then -x else x }
  function Min(a: nat, b: nat): nat { if a <= b then a else b }
  /** How many of `length` documents remain after skipping `skip`. */
  function Rest(length: nat, skip: nat): nat { if skip <= length then length - skip else 0 }

  /** A window starting at or past the end is empty; one starting before it is not. */
  lemma WindowEmpty(s: seq<Document>, skip: nat, limit: int)
    ensures Window(s, skip, limit) == [] <==> skip >= |s|
  {
  }

  /** `Placement.find(filter).skip(skip).limit(limit)`. */
  function Find(store: Store, filter: Filter, skip: int, limit: int): (r: Result<seq<Document>, StoreError>)
    ensures r.Failure? <==> store.findFault.Some? || skip < 0
    ensures r.Success? ==> forall i :: 0 <= i < |r.value| ==>
      Satisfies(r.value[i], filter, store.regexTest) && r.value[i] in store.records
  {
    if store.findFault.Some? then Failure(Unavailable(store.findFault.value))
    else if skip < 0 then Failure(NegativeSkip(skip))
    else Success(Window(Matching(store.records, filter, store.regexTest), skip, limit))
  }

  /** `Placement.countDocuments(filter)`: independent of any window. */
  function CountDocuments(store: Store, filter: Filter): (r: Result<nat, StoreError>)
    ensures r.Failure? <==> store.countFault.Some?
    ensures r.Success? ==> r.value == |Matching(store.records, filter, store.regexTest)|
    ensures r.Success? ==> r.value <= |store.records|
  {
    if store.countFault.Some? then Failure(Unavailable(store.countFault.value))
    else Success(|Matching(store.records, filter, store.regexTest)|)
  }
}
