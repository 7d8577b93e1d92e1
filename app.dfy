/**
 * The `/placements` handler of `src/app.js`: an `addFilter` helper, called once
 * per recognised parameter, splits the value on commas (no trimming), maps the
 * pieces with `parseInt` or the identity, and stores a bare value for one piece
 * or `{ $in: [...] }` for several. Records come back projected onto seven fields.
 */
module App {
  import opened Wrappers
  import opened JsStrings
  import opened JsParseInt
  import opened Filters
  import opened Pagination
  import opened Store

  const IntegerKeys: set<string> :=
    {"placement_id", "placement_status_id", "zone_id", "site_id", "publisher_id", "status_id"}
  const StringKeys: set<string> := {"placement_name", "placement_type", "tag_type", "primary_size"}
  /** The ten recognised parameters; everything else is ignored. */
  const Keys: set<string> := IntegerKeys + StringKeys

  lemma KeysDisjoint()
    ensures IntegerKeys !! StringKeys
  {
  }

  /**
   * The function `addFilter` maps the pieces with. `Array.prototype.map` calls it
   * with the piece and the piece's index, so `.map(parseInt)` hands the index to
   * `parseInt` as its radix (`ParseIntWithIndex`); `ParseIntOnly` is
   * `.map(v => parseInt(v))`, which the corrected filter uses.
   */
  datatype Parser = Identity | ParseIntWithIndex | ParseIntOnly

  /** The value the parser gives for the piece at position `index`. */
  function Apply(parser: Parser, piece: string, index: nat): Val {
    match parser
    case Identity => Str(piece)
    case ParseIntWithIndex => Int(ParseIntRadix(piece, index))
    case ParseIntOnly => Int(ParseInt(piece))
  }

  /** `pieces.map(parseFunc)`. */
  function Values(pieces: seq<string>, parser: Parser): (vals: seq<Val>)
    ensures |vals| == |pieces|
    ensures forall i :: 0 <= i < |pieces| ==> vals[i] == Apply(parser, pieces[i], i)
  {
    seq(|pieces|, i requires 0 <= i < |pieces| => Apply(parser, pieces[i], i))
  }

  /** `values.length > 1 ? { $in: values } : values[0]` for the pieces of `value`. */
  function Entry(value: string, parser: Parser): (c: Constraint)
    ensures c.Bare? <==> |Split(value)| == 1
    ensures c.In? ==> |c.vals| == |Split(value)|
  {
    var values := Values(Split(value), parser);
    if |values| > 1 then In(values) else Bare(values[0])
  }

  /**
   * One `addFilter(key, parseFunc)` call: a missing or empty parameter leaves the
   * filter as it is; otherwise `key`, and no other field, gets the parameter's entry.
   */
  function Add(filter: Filter, q: Query, key: string, parser: Parser): Filter {
    if Truthy(Lookup(q, key)) then filter[key := Entry(q[key], parser)] else filter
  }

  /** `addFilter` writes `filter[key]` and no other field. */
  lemma AddFrame(filter: Filter, q: Query, key: string, parser: Parser)
    ensures !Truthy(Lookup(q, key)) ==> Add(filter, q, key, parser) == filter
    ensures forall k :: k != key ==> (k in Add(filter, q, key, parser) <==> k in filter)
    ensures forall k :: k != key && k in filter ==> Add(filter, q, key, parser)[k] == filter[k]
  {
  }

  /**
   * The ten `addFilter` calls in source order; `ids` is what the six integer
   * fields are parsed with (`ParseIntWithIndex` as written).
   */
  function FilterWith(q: Query, ids: Parser): Filter {
    var f1 := Add(map[], q, "placement_id", ids);
    var f2 := Add(f1, q, "placement_name", Identity);
    var f3 := Add(f2, q, "placement_status_id", ids);
    var f4 := Add(f3, q, "placement_type", Identity);
    var f5 := Add(f4, q, "zone_id", ids);
    var f6 := Add(f5, q, "site_id", ids);
    var f7 := Add(f6, q, "publisher_id", ids);
    var f8 := Add(f7, q, "tag_type", Identity);
    var f9 := Add(f8, q, "primary_size", Identity);
    Add(f9, q, "status_id", ids)
  }

  /** The filter the handler builds, `.map(parseInt)` and all. */
  function FilterSpec(q: Query): Filter {
    FilterWith(q, ParseIntWithIndex)
  }

  /** The filter the handler evidently means to build: each id parsed in base 10. */
  function IntendedFilterSpec(q: Query): Filter {
    FilterWith(q, ParseIntOnly)
  }

  /** The filter's state while the handler runs: `addFilter` closes over the query and the filter. */
  class FilterBuilder {
    const query: Query
    var filter: Filter

    /** `const filter = {}` for the request's query. */
    constructor (query: Query)
      ensures this.query == query && filter == map[]
    {
      this.query := query;
      filter := map[];
    }

    /** `addFilter(key, parseFunc)`: sets `filter[key]` when the parameter is non-empty. */
    method AddFilter(key: string, parser: Parser)
      modifies this
      ensures filter == Add(old(filter), query, key, parser)
      ensures forall k :: k != key ==> (k in filter <==> k in old(filter))
      ensures forall k :: k != key && k in old(filter) ==> filter[k] == old(filter)[k]
    {
      if Truthy(Lookup(query, key)) {
        var values := Values(Split(query[key]), parser);
        filter := filter[key := if |values| > 1 then In(values) else Bare(values[0])];
      }
    }
  }

  /** Lines 59-79: a fresh filter and the ten calls. */
  method BuildFilter(q: Query, ids: Parser) returns (filter: Filter)
    ensures filter == FilterWith(q, ids)
  {
    var builder := new FilterBuilder(q);
    builder.AddFilter("placement_id", ids);
    builder.AddFilter("placement_name", Identity);
    builder.AddFilter("placement_status_id", ids);
    builder.AddFilter("placement_type", Identity);
    builder.AddFilter("zone_id", ids);
    builder.AddFilter("site_id", ids);
    builder.AddFilter("publisher_id", ids);
    builder.AddFilter("tag_type", Identity);
    builder.AddFilter("primary_size", Identity);
    builder.AddFilter("status_id", ids);
    filter := builder.filter;
  }

  /** What a recognised parameter's pieces are parsed with. */
  function ParserFor(key: string, ids: Parser): Parser {
    if key in IntegerKeys then ids else Identity
  }

  /** The filter described key by key, independent of the order of the calls. */
  function ByKey(q: Query, ids: Parser): Filter {
    ByKeyOver(q, ids, Keys)
  }

  /** The key-by-key filter restricted to the parameters named in `keys`. */
  function ByKeyOver(q: Query, ids: Parser, keys: set<string>): Filter {
    map key | key in keys && Truthy(Lookup(q, key)) :: Entry(q[key], ParserFor(key, ids))
  }

  /** One more call adds its key to the keys already accounted for. */
  lemma AddExtends(q: Query, ids: Parser, keys: set<string>, key: string, parser: Parser)
    requires parser == ParserFor(key, ids)
    ensures Add(ByKeyOver(q, ids, keys), q, key, parser) == ByKeyOver(q, ids, keys + {key})
  {
    var f := Add(ByKeyOver(q, ids, keys), q, key, parser);
    var g := ByKeyOver(q, ids, keys + {key});
    forall k | k in g
      ensures k in f && f[k] == g[k]
    {
      if k != key {
        assert f[k] == ByKeyOver(q, ids, keys)[k];
      }
    }
    assert f.Keys == g.Keys;
  }

  /** A field is constrained exactly when it is recognised and its parameter is non-empty. */
  lemma FilterKeys(q: Query, ids: Parser)
    ensures forall key :: key in FilterWith(q, ids) <==> key in Keys && Truthy(Lookup(q, key))
  {
    FilterByKey(q, ids);
  }

  /**
   * The ten calls build exactly the key-by-key filter: a key is present iff it
   * is one of the ten and its parameter is a non-empty string.
   */
  lemma FilterByKey(q: Query, ids: Parser)
    ensures FilterWith(q, ids) == ByKey(q, ids)
  {
    KeysDisjoint();
    var s0: set<string> := {};
    assert ByKeyOver(q, ids, s0) == map[];
    AddExtends(q, ids, s0, "placement_id", ids);
    var s1 := s0 + {"placement_id"};
    AddExtends(q, ids, s1, "placement_name", Identity);
    var s2 := s1 + {"placement_name"};
    AddExtends(q, ids, s2, "placement_status_id", ids);
    var s3 := s2 + {"placement_status_id"};
    AddExtends(q, ids, s3, "placement_type", Identity);
    var s4 := s3 + {"placement_type"};
    AddExtends(q, ids, s4, "zone_id", ids);
    var s5 := s4 + {"zone_id"};
    AddExtends(q, ids, s5, "site_id", ids);
    var s6 := s5 + {"site_id"};
    AddExtends(q, ids, s6, "publisher_id", ids);
    var s7 := s6 + {"publisher_id"};
    AddExtends(q, ids, s7, "tag_type", Identity);
    var s8 := s7 + {"tag_type"};
    AddExtends(q, ids, s8, "primary_size", Identity);
    var s9 := s8 + {"primary_size"};
    AddExtends(q, ids, s9, "status_id", ids);
    var s10 := s9 + {"status_id"};
    assert s10 == Keys;
  }

  /**
   * A present key holds the raw comma-separated pieces (not trimmed) mapped by its
   * parser, the piece's index passed along: one piece is stored bare, several as
   * an `$in` list in input order. String fields keep each piece verbatim.
   */
  lemma FilterEntries(q: Query, ids: Parser, key: string)
    requires key in FilterWith(q, ids)
    ensures key in Keys && key in q && q[key] != ""
    ensures var c := FilterWith(q, ids)[key]; var pieces := Split(q[key]);
      var parser := ParserFor(key, ids);
      (|pieces| == 1 ==> c == Bare(Apply(parser, q[key], 0))) &&
      (|pieces| > 1 ==> c.In? && |c.vals| == |pieces| &&
                        forall i :: 0 <= i < |pieces| ==> c.vals[i] == Apply(parser, pieces[i], i))
    ensures key in StringKeys ==> ParserFor(key, ids) == Identity
  {
    FilterByKey(q, ids);
    KeysDisjoint();
    if |Split(q[key])| == 1 {
      assert ',' !in q[key] by {
        JoinSplit(q[key]);
      }
      SplitNoComma(q[key]);
    }
  }

  /** A parameter outside the ten recognised ones has no effect on the filter. */
  lemma IgnoresOtherParameters(q: Query, ids: Parser, key: string, value: string)
    requires key !in Keys
    ensures FilterWith(q[key := value], ids) == FilterWith(q, ids)
  {
    FilterByKey(q, ids);
    FilterByKey(q[key := value], ids);
    ByKeyIgnores(q, ids, key, value);
  }

  lemma ByKeyIgnores(q: Query, ids: Parser, key: string, value: string)
    requires key !in Keys
    ensures ByKey(q[key := value], ids) == ByKey(q, ids)
  {
    assert forall k :: k in Keys ==> Lookup(q[key := value], k) == Lookup(q, k);
  }

  /** A comma-free value is a single piece, stored bare. */
  lemma EntrySingle(value: string, parser: Parser)
    requires ',' !in value
    ensures Entry(value, parser) == Bare(Apply(parser, value, 0))
  {
    SplitNoComma(value);
  }

  /** A request whose only parameter is a recognised one filters on that field alone. */
  lemma OnlyParameter(key: string, value: string, ids: Parser)
    requires key in Keys
    ensures FilterWith(map[key := value], ids) ==
      if value == "" then map[] else map[key := Entry(value, ParserFor(key, ids))]
  {
    FilterByKey(map[key := value], ids);
    ByKeySingle(key, value, ids);
  }

  lemma ByKeySingle(key: string, value: string, ids: Parser)
    requires key in Keys
    ensures ByKey(map[key := value], ids) ==
      if value == "" then map[] else map[key := Entry(value, ParserFor(key, ids))]
  {
    var q := map[key := value];
    var m := ByKey(q, ids);
    if value == "" {
      assert forall k :: k !in m;
    } else {
      var e := map[key := Entry(value, ParserFor(key, ids))];
      assert m.Keys == e.Keys;
      assert m[key] == e[key];
    }
  }

  /** A single `site_id` is an exact match on the bare value. */
  lemma SingleSiteIdIsBare()
    ensures FilterSpec(map["site_id" := "5"]) == map["site_id" := Bare(Int(Some(5)))]
  {
    OnlyParameter("site_id", "5", ParseIntWithIndex);
    EntrySingle("5", ParseIntWithIndex);
    ParsesDigit(5);
  }

  /**
   * As written, `.map(parseInt)` parses the second piece in radix 1, which is
   * always NaN: an integer parameter with two or more ids never matches its
   * second id, whatever its text.
   */
  lemma SecondIdIsNaN(q: Query, key: string)
    requires key in IntegerKeys && key in q && Count(q[key], ',') >= 1
    ensures key in FilterSpec(q)
    ensures FilterSpec(q)[key].In? && |FilterSpec(q)[key].vals| >= 2
    ensures FilterSpec(q)[key].vals[1] == Int(None)
  {
    FilterByKey(q, ParseIntWithIndex);
    FilterEntries(q, ParseIntWithIndex, key);
    RadixOneIsNaN(Split(q[key])[1]);
  }

  /** `site_id=5,7` as written: the 7 becomes NaN. */
  lemma FiveSevenAsWritten()
    ensures FilterSpec(map["site_id" := "5,7"]) == map["site_id" := In([Int(Some(5)), Int(None)])]
  {
    FiveSevenEntries();
    OnlyParameter("site_id", "5,7", ParseIntWithIndex);
  }

  /** `site_id=5,7` with the ids parsed as intended: the list [5, 7]. */
  lemma FiveSevenIntended()
    ensures IntendedFilterSpec(map["site_id" := "5,7"]) ==
      map["site_id" := In([Int(Some(5)), Int(Some(7))])]
  {
    FiveSevenEntries();
    OnlyParameter("site_id", "5,7", ParseIntOnly);
  }

  /** Two placements with `site_id` 5 and 7. */
  const FiveSevenRecords: seq<Document> := [map["site_id" := Num(5)], map["site_id" := Num(7)]]

  /**
   * What the two filters find for `site_id=5,7` among `FiveSevenRecords`: as
   * written only the first placement (`totalItems` 1), as intended both.
   */
  lemma FiveSevenMatches(test: RegexTest)
    ensures Matching(FiveSevenRecords, FilterSpec(map["site_id" := "5,7"]), test) == [FiveSevenRecords[0]]
    ensures Matching(FiveSevenRecords, IntendedFilterSpec(map["site_id" := "5,7"]), test) == FiveSevenRecords
  {
    FiveSevenAsWritten();
    FiveSevenIntended();
    AsWrittenMatchesFive(test);
    IntendedMatchesBoth(test);
  }

  lemma AsWrittenMatchesFive(test: RegexTest)
    ensures Matching(FiveSevenRecords, map["site_id" := In([Int(Some(5)), Int(None)])], test) ==
      [FiveSevenRecords[0]]
  {
    var f := map["site_id" := In([Int(Some(5)), Int(None)])];
    MatchingPair(FiveSevenRecords[0], FiveSevenRecords[1], f, test);
    var vals := [Int(Some(5)), Int(None)];
    assert ValMatches(Num(5), vals[0], test);
    assert Satisfies(FiveSevenRecords[0], f, test);
    assert FiveSevenRecords[1]["site_id"] == Num(7);
    assert forall i :: 0 <= i < |vals| ==> !ValMatches(Num(7), vals[i], test);
    assert !ConstraintHolds(FiveSevenRecords[1], "site_id", f["site_id"], test);
  }

  lemma IntendedMatchesBoth(test: RegexTest)
    ensures Matching(FiveSevenRecords, map["site_id" := In([Int(Some(5)), Int(Some(7))])], test) ==
      FiveSevenRecords
  {
    var f := map["site_id" := In([Int(Some(5)), Int(Some(7))])];
    MatchingPair(FiveSevenRecords[0], FiveSevenRecords[1], f, test);
    assert ValMatches(Num(5), In([Int(Some(5)), Int(Some(7))]).vals[0], test);
    assert Satisfies(FiveSevenRecords[0], f, test);
    assert ValMatches(Num(7), In([Int(Some(5)), Int(Some(7))]).vals[1], test);
    assert Satisfies(FiveSevenRecords[1], f, test);
  }

  lemma FiveSevenEntries()
    ensures Entry("5,7", ParseIntWithIndex) == In([Int(Some(5)), Int(None)])
    ensures Entry("5,7", ParseIntOnly) == In([Int(Some(5)), Int(Some(7))])
  {
    FiveSevenPieces();
    FiveSevenValues();
  }

  lemma FiveSevenPieces()
    ensures Split("5,7") == ["5", "7"]
  {
    SplitTwo("5", "7");
    assert "5,7" == "5" + "," + "7";
  }

  lemma FiveSevenValues()
    ensures Values(["5", "7"], ParseIntWithIndex) == [Int(Some(5)), Int(None)]
    ensures Values(["5", "7"], ParseIntOnly) == [Int(Some(5)), Int(Some(7))]
  {
    ValuesOfTwo("5", "7", ParseIntWithIndex);
    ValuesOfTwo("5", "7", ParseIntOnly);
    ParsesDigit(5);
    ParsesDigit(7);
    RadixOneIsNaN("7");
  }

  /**
   * `site_id=5,7,1` as written: the 7 is read in radix 1 (NaN) and the 1 in
   * radix 2, where it is still 1; a 7 in third place would be NaN as well.
   */
  lemma FiveSevenOneAsWritten()
    ensures Entry("5,7,1", ParseIntWithIndex) == In([Int(Some(5)), Int(None), Int(Some(1))])
    ensures ParseIntRadix("7", 2) == None
  {
    FiveSevenOnePieces();
    FiveSevenOneValues();
    SevenInBinary();
  }

  lemma FiveSevenOneValues()
    ensures Values(["5", "7", "1"], ParseIntWithIndex) == [Int(Some(5)), Int(None), Int(Some(1))]
  {
    assert Values(["5", "7", "1"], ParseIntWithIndex) ==
      [Apply(ParseIntWithIndex, "5", 0), Apply(ParseIntWithIndex, "7", 1), Apply(ParseIntWithIndex, "1", 2)];
    ParsesDigit(5);
    RadixOneIsNaN("7");
    ParseIntRadixRoundTrip(1, 2);
    assert Numeral(1, 2) == "1";
  }

  /** In radix 2, `"7"` has no digit. */
  lemma SevenInBinary()
    ensures ParseIntRadix("7", 2) == None
  {
    ParseIntInRadix("7", 2);
    assert DigitPrefix("7", 2) == 0;
  }

  lemma FiveSevenOnePieces()
    ensures Split("5,7,1") == ["5", "7", "1"]
  {
    SplitJoin(["5", "7", "1"]);
    assert Join(["5", "7", "1"]) == "5,7,1";
  }

  /** `parseInt` of a one-digit numeral. */
  lemma ParsesDigit(d: nat)
    requires d < 10
    ensures ParseInt([DigitChar(d)]) == Some(d)
  {
    ParseIntRoundTrip(d);
  }

  lemma ValuesOfTwo(a: string, b: string, parser: Parser)
    ensures Values([a, b], parser) == [Apply(parser, a, 0), Apply(parser, b, 1)]
  {
  }

  /**
   * The two filters differ only in how several ids are parsed: when no integer
   * parameter holds a comma they are the same filter.
   */
  lemma AgreeOnSingleValues(q: Query)
    requires forall key :: key in IntegerKeys && key in q ==> ',' !in q[key]
    ensures FilterSpec(q) == IntendedFilterSpec(q)
  {
    FilterByKey(q, ParseIntWithIndex);
    FilterByKey(q, ParseIntOnly);
    ByKeyAgree(q);
  }

  lemma ByKeyAgree(q: Query)
    requires forall key :: key in IntegerKeys && key in q ==> ',' !in q[key]
    ensures ByKey(q, ParseIntWithIndex) == ByKey(q, ParseIntOnly)
  {
    forall key | key in Keys && Truthy(Lookup(q, key))
      ensures Entry(q[key], ParserFor(key, ParseIntWithIndex)) ==
              Entry(q[key], ParserFor(key, ParseIntOnly))
    {
      if key in IntegerKeys {
        EntrySingle(q[key], ParseIntWithIndex);
        EntrySingle(q[key], ParseIntOnly);
      }
    }
  }

  /** The decimal numerals of `ns`. */
  function Decimals(ns: seq<int>): (ss: seq<string>)
    ensures |ss| == |ns|
    ensures forall i :: 0 <= i < |ns| ==> ss[i] == Decimal(ns[i])
  {
    if ns == [] then [] else [Decimal(ns[0])] + Decimals(ns[1..])
  }

  /** The filter values `ns` as integers. */
  function Ints(ns: seq<int>): (vals: seq<Val>)
    ensures |vals| == |ns|
    ensures forall i :: 0 <= i < |ns| ==> vals[i] == Int(Some(ns[i]))
  {
    if ns == [] then [] else [Int(Some(ns[0]))] + Ints(ns[1..])
  }

  lemma DecimalNoComma(n: int)
    ensures ',' !in Decimal(n) && Decimal(n) != ""
  {
    var d := DecimalDigits(if n < 0 then -n else n);
    assert forall k :: 0 <= k < |d| ==> IsDigit(d[k], 10);
  }

  /**
   * The intended filter reads back every id of a comma-separated list: the
   * comma-join of the decimal numerals of two or more integers becomes the
   * `$in` list of exactly those integers, in order.
   */
  lemma IntendedIdsRoundTrip(key: string, ns: seq<int>)
    requires key in IntegerKeys && |ns| >= 2
    ensures IntendedFilterSpec(map[key := Join(Decimals(ns))]) == map[key := In(Ints(ns))]
  {
    DecimalsEntry(ns);
    DecimalsJoin(ns);
    OnlyParameter(key, Join(Decimals(ns)), ParseIntOnly);
  }

  /** Decimal numerals are non-empty and comma-free, so their join splits back. */
  lemma DecimalsJoin(ns: seq<int>)
    requires |ns| >= 1
    ensures Split(Join(Decimals(ns))) == Decimals(ns)
    ensures Join(Decimals(ns)) != ""
  {
    var ds := Decimals(ns);
    forall i | 0 <= i < |ds|
      ensures ',' !in ds[i]
    {
      DecimalNoComma(ns[i]);
    }
    SplitJoin(ds);
    DecimalNoComma(ns[0]);
    JoinNonEmpty(ds);
  }

  /** The intended parser reads each numeral back. */
  lemma DecimalsEntry(ns: seq<int>)
    requires |ns| >= 2
    ensures Entry(Join(Decimals(ns)), ParseIntOnly) == In(Ints(ns))
  {
    DecimalsJoin(ns);
    DecimalsValues(ns);
  }

  lemma DecimalsValues(ns: seq<int>)
    ensures Values(Decimals(ns), ParseIntOnly) == Ints(ns)
  {
    var vals := Values(Decimals(ns), ParseIntOnly);
    forall i | 0 <= i < |ns|
      ensures vals[i] == Ints(ns)[i]
    {
      ParseIntRoundTrip(ns[i]);
    }
  }

  lemma {:induction false} JoinNonEmpty(pieces: seq<string>)
    requires |pieces| >= 1 && pieces[0] != ""
    ensures Join(pieces) != ""
  {
    if |pieces| > 1 {
      assert Join(pieces) == pieces[0] + "," + Join(pieces[1..]);
      assert |Join(pieces)| >= |pieces[0]|;
    }
  }

  /** As written, the same request loses the second id to NaN. */
  lemma AsWrittenLosesSecondId(key: string, ns: seq<int>)
    requires key in IntegerKeys && |ns| >= 2
    ensures FilterSpec(map[key := Join(Decimals(ns))]) != map[key := In(Ints(ns))]
  {
    var q := map[key := Join(Decimals(ns))];
    DecimalsJoin(ns);
    assert Count(q[key], ',') >= 1;
    SecondIdIsNaN(q, key);
    assert Ints(ns)[1] == Int(Some(ns[1]));
  }

  /** `.select(...)`: the seven listed fields, plus `_id`, which MongoDB keeps unless excluded. */
  const Selected: set<string> := {
    "_id", "placement_id", "placement_name", "publisher_id", "site_id", "status_id",
    "placement_type", "primary_size"}

  /** A document with only its selected fields, values untouched. */
  function Project(doc: Document): (r: Document)
    ensures r.Keys <= Selected && r.Keys <= doc.Keys
    ensures forall k :: k in doc && k in Selected ==> k in r && r[k] == doc[k]
  {
    map k | k in doc && k in Selected :: doc[k]
  }

  /** Projecting twice is projecting once. */
  lemma ProjectIdempotent(doc: Document)
    ensures Project(Project(doc)) == Project(doc)
  {
    var p := Project(doc);
    assert forall k :: k in Project(p) <==> k in p;
  }

  /** The projection applied to every document of a page. */
  function ProjectAll(docs: seq<Document>): (r: seq<Document>)
    ensures |r| == |docs|
    ensures forall i :: 0 <= i < |docs| ==> r[i] == Project(docs[i])
  {
    if docs == [] then [] else [Project(docs[0])] + ProjectAll(docs[1..])
  }

  /** The fixed error body: the store's own message is logged, never returned. */
  const FetchError := "An error occurred while fetching placements"

  /** The handler's response: the page and its counters, or a 500 with the fixed message. */
  datatype Response =
    | Ok(placements: seq<Document>, currentPage: int, totalPages: int, totalItems: nat)
    | Error(status: nat, error: string)

  /**
   * `GET /placements`: page arithmetic, the filter, one projected and windowed
   * `find` and one `countDocuments` with the same filter; any store failure
   * becomes a 500 with the fixed message. `ids` is what the integer fields are
   * parsed with: `ParseIntWithIndex` is the handler as written, `ParseIntOnly`
   * the corrected one.
   */
  method Placements(q: Query, store: Store, ids: Parser) returns (resp: Response)
    ensures resp.Ok? <==>
      store.findFault.None? && Skip(Page(q), Limit(q)) >= 0 && store.countFault.None?
    ensures resp.Ok? ==>
      var matching := Matching(store.records, FilterWith(q, ids), store.regexTest);
      resp.currentPage == Page(q) && resp.totalItems == |matching| &&
      resp.totalPages == TotalPages(|matching|, Limit(q)) &&
      resp.placements == ProjectAll(Window(matching, Skip(Page(q), Limit(q)), Limit(q)))
    ensures resp.Ok? ==> forall i :: 0 <= i < |resp.placements| ==> resp.placements[i].Keys <= Selected
    ensures resp.Ok? && Limit(q) >= 1 ==> |resp.placements| <= Limit(q)
    ensures resp.Ok? && resp.currentPage >= 1 && Limit(q) >= 1 ==>
      (resp.placements == [] <==> resp.currentPage > resp.totalPages)
    ensures resp.Error? ==> resp.status == 500 && resp.error == FetchError
  {
    var page := Page(q);
    var limit := Limit(q);
    var skip := Skip(page, limit);
    var filter := BuildFilter(q, ids);
    var found := Find(store, filter, skip, limit);
    if found.Failure? {
      return Error(500, FetchError);
    }
    var placements := ProjectAll(found.value);
    var counted := CountDocuments(store, filter);
    if counted.Failure? {
      return Error(500, FetchError);
    }
    resp := Ok(placements, page, TotalPages(counted.value, limit), counted.value);
    if page >= 1 && limit >= 1 {
      PageFacts(Matching(store.records, filter, store.regexTest), page, limit, skip);
    }
  }

  /**
   * For a positive page and limit, a page holds at most `limit` projected
   * records, and none exactly when it lies past the last page.
   */
  lemma PageFacts(matching: seq<Document>, page: int, limit: int, skip: nat)
    requires page >= 1 && limit >= 1 && skip == Skip(page, limit)
    ensures var docs := ProjectAll(Window(matching, skip, limit));
      |docs| <= limit && (docs == [] <==> page > TotalPages(|matching|, limit))
  {
    WindowEmpty(matching, skip, limit);
    PageInRange(|matching|, page, limit);
  }
}
