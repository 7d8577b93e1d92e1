/**
 * The `/placements` handler of `src/app_without_index.js`: every recognised
 * parameter becomes `{ $in: [...] }` (even for one value), integer fields hold
 * `parseInt` of the trimmed pieces and string fields case-insensitive regular
 * expressions; the response carries `data` and a `metadata` block.
 */
module AppWithoutIndex {
  import opened Wrappers
  import opened JsStrings
  import opened JsParseInt
  import opened Filters
  import opened Pagination
  import opened Store

  /** How a recognised parameter's pieces are turned into filter values. */
  datatype Kind =
    | IntegerField  // `parseInt` of each piece
    | PatternField  // a case-insensitive regular expression per piece

  const IntegerKeys: set<string> := {"placement_id", "publisher_id", "site_id", "status_id"}
  const PatternKeys: set<string> := {"placement_name", "placement_type", "primary_size"}
  /** The seven recognised parameters; everything else is ignored. */
  const Keys: set<string> := IntegerKeys + PatternKeys

  lemma KeysDisjoint()
    ensures IntegerKeys !! PatternKeys
  {
  }

  /**
   * `parseMultipleValues`: nothing for an absent or empty parameter, otherwise one
   * trimmed item per comma-separated piece, empty pieces kept.
   */
  function ParseMultipleValues(value: Option<string>): (items: seq<string>)
    ensures !Truthy(value) ==> items == []
    ensures Truthy(value) ==> |items| == Count(value.value, ',') + 1
    ensures Truthy(value) ==> forall i :: 0 <= i < |items| ==>
      items[i] == Trim(Split(value.value)[i])
  {
    if Truthy(value) then TrimAll(Split(value.value)) else []
  }

  /** `pieces.map(v => v.trim())`. */
  function TrimAll(pieces: seq<string>): (items: seq<string>)
    ensures |items| == |pieces|
    ensures forall i :: 0 <= i < |pieces| ==> items[i] == Trim(pieces[i])
  {
    if pieces == [] then [] else [Trim(pieces[0])] + TrimAll(pieces[1..])
  }

  /** `ids.map(id => parseInt(id))`. */
  function IdValues(ids: seq<string>): (vals: seq<Val>)
    ensures |vals| == |ids|
    ensures forall i :: 0 <= i < |ids| ==> vals[i] == Int(ParseInt(ids[i]))
  {
    if ids == [] then [] else [Int(ParseInt(ids[0]))] + IdValues(ids[1..])
  }

  /** `names.map(name => new RegExp(name, 'i'))`. */
  function PatternValues(names: seq<string>): (vals: seq<Val>)
    ensures |vals| == |names|
    ensures forall i :: 0 <= i < |names| ==> vals[i] == Pat(names[i], true)
  {
    if names == [] then [] else [Pat(names[0], true)] + PatternValues(names[1..])
  }

  /** The constraint the handler stores for a recognised parameter with value `value`. */
  function Entry(kind: Kind, value: Option<string>): (c: Constraint)
    ensures c.In? && |c.vals| == |ParseMultipleValues(value)|
  {
    var items := ParseMultipleValues(value);
    match kind
    case IntegerField => In(IdValues(items))
    case PatternField => In(PatternValues(items))
  }

  /** One `if (req.query.key)` block: sets the field when the parameter is truthy. */
  function Block(filter: Filter, q: Query, key: string, kind: Kind): Filter {
    if Truthy(Lookup(q, key)) then filter[key := Entry(kind, Lookup(q, key))] else filter
  }

  lemma BlockTaken(filter: Filter, q: Query, key: string, kind: Kind)
    requires Truthy(Lookup(q, key))
    ensures Block(filter, q, key, kind) == filter[key := Entry(kind, Lookup(q, key))]
  {
  }

  lemma BlockSkipped(filter: Filter, q: Query, key: string, kind: Kind)
    requires !Truthy(Lookup(q, key))
    ensures Block(filter, q, key, kind) == filter
  {
  }

  /** The filter document the handler builds from `q`: the seven blocks in order. */
  function FilterSpec(q: Query): Filter {
    var f1 := Block(map[], q, "placement_id", IntegerField);
    var f2 := Block(f1, q, "placement_name", PatternField);
    var f3 := Block(f2, q, "publisher_id", IntegerField);
    var f4 := Block(f3, q, "site_id", IntegerField);
    var f5 := Block(f4, q, "status_id", IntegerField);
    var f6 := Block(f5, q, "placement_type", PatternField);
    Block(f6, q, "primary_size", PatternField)
  }

  /** The seven `if (req.query.X)` blocks, filling `filter` one field at a time. */
  method BuildFilter(q: Query) returns (filter: Filter)
    ensures filter == FilterSpec(q)
  {
    filter := map[];
    ghost var before := filter;
    if Truthy(Lookup(q, "placement_id")) {
      var ids := ParseMultipleValues(Lookup(q, "placement_id"));
      filter := filter["placement_id" := In(IdValues(ids))];
      BlockTaken(before, q, "placement_id", IntegerField);
    } else {
      BlockSkipped(before, q, "placement_id", IntegerField);
    }
    before := filter;
    if Truthy(Lookup(q, "placement_name")) {
      var names := ParseMultipleValues(Lookup(q, "placement_name"));
      filter := filter["placement_name" := In(PatternValues(names))];
      BlockTaken(before, q, "placement_name", PatternField);
    } else {
      BlockSkipped(before, q, "placement_name", PatternField);
    }
    before := filter;
    if Truthy(Lookup(q, "publisher_id")) {
      var ids := ParseMultipleValues(Lookup(q, "publisher_id"));
      filter := filter["publisher_id" := In(IdValues(ids))];
      BlockTaken(before, q, "publisher_id", IntegerField);
    } else {
      BlockSkipped(before, q, "publisher_id", IntegerField);
    }
    before := filter;
    if Truthy(Lookup(q, "site_id")) {
      var ids := ParseMultipleValues(Lookup(q, "site_id"));
      filter := filter["site_id" := In(IdValues(ids))];
      BlockTaken(before, q, "site_id", IntegerField);
    } else {
      BlockSkipped(before, q, "site_id", IntegerField);
    }
    before := filter;
    if Truthy(Lookup(q, "status_id")) {
      var ids := ParseMultipleValues(Lookup(q, "status_id"));
      filter := filter["status_id" := In(IdValues(ids))];
      BlockTaken(before, q, "status_id", IntegerField);
    } else {
      BlockSkipped(before, q, "status_id", IntegerField);
    }
    before := filter;
    if Truthy(Lookup(q, "placement_type")) {
      var types := ParseMultipleValues(Lookup(q, "placement_type"));
      filter := filter["placement_type" := In(PatternValues(types))];
      BlockTaken(before, q, "placement_type", PatternField);
    } else {
      BlockSkipped(before, q, "placement_type", PatternField);
    }
    before := filter;
    if Truthy(Lookup(q, "primary_size")) {
      var sizes := ParseMultipleValues(Lookup(q, "primary_size"));
      filter := filter["primary_size" := In(PatternValues(sizes))];
      BlockTaken(before, q, "primary_size", PatternField);
    } else {
      BlockSkipped(before, q, "primary_size", PatternField);
    }
  }

  /** Which kind of values a recognised parameter holds. */
  function KindOf(key: string): Kind {
    if key in IntegerKeys then IntegerField else PatternField
  }

  /**
   * The filter described key by key, independent of the order of the blocks: a
   * recognised parameter with a non-empty value contributes its entry, nothing
   * else contributes anything.
   */
  function ByKey(q: Query): Filter {
    map key | key in Keys && Truthy(Lookup(q, key)) :: Entry(KindOf(key), Lookup(q, key))
  }

  /** The key-by-key filter restricted to the parameters named in `keys`. */
  function ByKeyOver(q: Query, keys: set<string>): Filter {
    map key | key in keys && Truthy(Lookup(q, key)) :: Entry(KindOf(key), Lookup(q, key))
  }

  /** One more block adds its key to the keys already accounted for. */
  lemma BlockExtends(q: Query, keys: set<string>, key: string, kind: Kind)
    requires kind == KindOf(key)
    ensures Block(ByKeyOver(q, keys), q, key, kind) == ByKeyOver(q, keys + {key})
  {
    BlockExtendsKeys(q, keys, key, kind);
    BlockExtendsValues(q, keys, key, kind);
    SameFilters(Block(ByKeyOver(q, keys), q, key, kind), ByKeyOver(q, keys + {key}));
  }

  lemma BlockExtendsKeys(q: Query, keys: set<string>, key: string, kind: Kind)
    ensures Block(ByKeyOver(q, keys), q, key, kind).Keys == ByKeyOver(q, keys + {key}).Keys
  {
  }

  lemma BlockExtendsValues(q: Query, keys: set<string>, key: string, kind: Kind)
    requires kind == KindOf(key)
    ensures var f := Block(ByKeyOver(q, keys), q, key, kind); var g := ByKeyOver(q, keys + {key});
      forall k :: k in f && k in g ==> f[k] == g[k]
  {
    var f := Block(ByKeyOver(q, keys), q, key, kind);
    var g := ByKeyOver(q, keys + {key});
    forall k | k in f && k in g
      ensures f[k] == g[k]
    {
      if k == key {
        assert f[k] == Entry(kind, Lookup(q, key));
      } else {
        assert f[k] == ByKeyOver(q, keys)[k];
      }
    }
  }

  /** Two filters with the same fields and the same constraints are equal. */
  lemma SameFilters(f: Filter, g: Filter)
    requires f.Keys == g.Keys
    requires forall k :: k in f && k in g ==> f[k] == g[k]
    ensures f == g
  {
  }

  /** A field is constrained exactly when it is recognised and its parameter is non-empty. */
  lemma FilterKeys(q: Query)
    ensures forall key :: key in FilterSpec(q) <==> key in Keys && Truthy(Lookup(q, key))
  {
    FilterSpecByKey(q);
  }

  /** The seven blocks build exactly the key-by-key filter. */
  lemma FilterSpecByKey(q: Query)
    ensures FilterSpec(q) == ByKey(q)
  {
    var s0: set<string> := {};
    assert ByKeyOver(q, s0) == map[];
    BlockExtends(q, s0, "placement_id", IntegerField);
    var s1 := s0 + {"placement_id"};
    BlockExtends(q, s1, "placement_name", PatternField);
    var s2 := s1 + {"placement_name"};
    BlockExtends(q, s2, "publisher_id", IntegerField);
    var s3 := s2 + {"publisher_id"};
    BlockExtends(q, s3, "site_id", IntegerField);
    var s4 := s3 + {"site_id"};
    BlockExtends(q, s4, "status_id", IntegerField);
    var s5 := s4 + {"status_id"};
    BlockExtends(q, s5, "placement_type", PatternField);
    var s6 := s5 + {"placement_type"};
    BlockExtends(q, s6, "primary_size", PatternField);
    var s7 := s6 + {"primary_size"};
    assert s7 == Keys;
  }

  /**
   * Every entry is an `$in` list with one value per comma-separated piece, never a
   * bare value: `parseInt` of the trimmed piece for an integer field, a
   * case-insensitive pattern whose source is the trimmed piece for a string field.
   */
  lemma FilterEntries(q: Query, key: string)
    requires key in FilterSpec(q)
    ensures key in Keys && key in q
    ensures var c := FilterSpec(q)[key]; var pieces := Split(q[key]);
      c.In? && |c.vals| == |pieces| == Count(q[key], ',') + 1 &&
      (key in IntegerKeys ==>
        forall i :: 0 <= i < |pieces| ==> c.vals[i] == Int(ParseInt(Trim(pieces[i])))) &&
      (key in PatternKeys ==>
        forall i :: 0 <= i < |pieces| ==> c.vals[i] == Pat(Trim(pieces[i]), true))
  {
    FilterSpecByKey(q);
    KeysDisjoint();
    EntryValues(KindOf(key), q[key]);
  }

  /** The entry of a non-empty parameter: one value per piece, by kind. */
  lemma EntryValues(kind: Kind, value: string)
    requires value != ""
    ensures var c := Entry(kind, Some(value)); var pieces := Split(value);
      c.In? && |c.vals| == |pieces| == Count(value, ',') + 1 &&
      (kind == IntegerField ==>
        forall i :: 0 <= i < |pieces| ==> c.vals[i] == Int(ParseInt(Trim(pieces[i])))) &&
      (kind == PatternField ==>
        forall i :: 0 <= i < |pieces| ==> c.vals[i] == Pat(Trim(pieces[i]), true))
  {
    var items := ParseMultipleValues(Some(value));
    assert |items| == |Split(value)|;
    if kind == IntegerField {
      assert Entry(kind, Some(value)) == In(IdValues(items));
    } else {
      assert Entry(kind, Some(value)) == In(PatternValues(items));
    }
  }

  /** A parameter outside the seven recognised ones has no effect on the filter. */
  lemma IgnoresOtherParameters(q: Query, key: string, value: string)
    requires key !in Keys
    ensures FilterSpec(q[key := value]) == FilterSpec(q)
  {
    FilterSpecByKey(q);
    FilterSpecByKey(q[key := value]);
    ByKeyIgnores(q, key, value);
  }

  lemma ByKeyIgnores(q: Query, key: string, value: string)
    requires key !in Keys
    ensures ByKey(q[key := value]) == ByKey(q)
  {
    assert forall k :: k in Keys ==> Lookup(q[key := value], k) == Lookup(q, k);
  }

  /** Without any recognised parameter the filter is empty and every record matches. */
  lemma NoParametersMatchAll(q: Query, records: seq<Document>, test: RegexTest)
    requires forall key :: key in Keys ==> !Truthy(Lookup(q, key))
    ensures FilterSpec(q) == map[]
    ensures Matching(records, FilterSpec(q), test) == records
  {
    FilterSpecByKey(q);
    EmptyFilterMatchesAll(records, test);
  }

  /**
   * Items that are already trimmed, contain no comma and do not join to the empty
   * string come back unchanged from `parseMultipleValues` of their comma-join.
   */
  lemma {:induction false} ParseMultipleValuesJoin(items: seq<string>)
    requires |items| >= 1 && Join(items) != ""
    requires forall i :: 0 <= i < |items| ==> ',' !in items[i] && Trim(items[i]) == items[i]
    ensures ParseMultipleValues(Some(Join(items))) == items
  {
    SplitJoin(items);
    TrimAllTrimmed(items);
  }

  lemma {:induction false} TrimAllTrimmed(pieces: seq<string>)
    requires forall i :: 0 <= i < |pieces| ==> Trim(pieces[i]) == pieces[i]
    ensures TrimAll(pieces) == pieces
  {
    if pieces != [] {
      TrimAllTrimmed(pieces[1..]);
    }
  }

  /** A request whose only parameter is a recognised one filters on that field alone. */
  lemma OnlyParameter(key: string, value: string)
    requires key in Keys
    ensures FilterSpec(map[key := value]) ==
      if value == "" then map[] else map[key := Entry(KindOf(key), Some(value))]
  {
    FilterSpecByKey(map[key := value]);
    ByKeySingle(key, value);
  }

  lemma ByKeySingle(key: string, value: string)
    requires key in Keys
    ensures ByKey(map[key := value]) ==
      if value == "" then map[] else map[key := Entry(KindOf(key), Some(value))]
  {
    if value == "" {
      ByKeyNoValue(key);
    } else {
      ByKeyOneKey(key, value);
      ByKeyOneValue(key, value);
      SingletonMap(ByKey(map[key := value]), key, Entry(KindOf(key), Some(value)));
    }
  }

  lemma SingletonMap(m: Filter, key: string, c: Constraint)
    requires m.Keys == {key} && m[key] == c
    ensures m == map[key := c]
  {
  }

  lemma ByKeyNoValue(key: string)
    ensures ByKey(map[key := ""]) == map[]
  {
    assert forall k :: !Truthy(Lookup(map[key := ""], k));
  }

  lemma ByKeyOneKey(key: string, value: string)
    requires key in Keys && value != ""
    ensures ByKey(map[key := value]).Keys == {key}
  {
    assert forall k :: Truthy(Lookup(map[key := value], k)) <==> k == key;
  }

  lemma ByKeyOneValue(key: string, value: string)
    requires key in Keys && value != ""
    ensures key in ByKey(map[key := value])
    ensures ByKey(map[key := value])[key] == Entry(KindOf(key), Some(value))
  {
    assert Lookup(map[key := value], key) == Some(value);
  }

  /** A single `site_id` is still an `$in` list of one value. */
  lemma SingleSiteId()
    ensures FilterSpec(map["site_id" := "5"]) == map["site_id" := In([Int(Some(5))])]
  {
    OnlyParameter("site_id", "5");
    SplitNoComma("5");
    TrimmedDigits();
    DecimalIds();
  }

  /** `site_id=5, 7` (a space after the comma) gives the list [5, 7]. */
  lemma TwoSiteIds()
    ensures FilterSpec(map["site_id" := "5, 7"]) == map["site_id" := In([Int(Some(5)), Int(Some(7))])]
  {
    OnlyParameter("site_id", "5, 7");
    TwoPieces();
    DecimalIds();
  }

  lemma TwoPieces()
    ensures ParseMultipleValues(Some("5, 7")) == ["5", "7"]
  {
    SplitTwo("5", " 7");
    assert "5, 7" == "5" + "," + " 7";
    TrimAllOfTwo("5", " 7");
    TrimmedDigits();
  }

  lemma TrimAllOfTwo(a: string, b: string)
    ensures TrimAll([a, b]) == [Trim(a), Trim(b)]
  {
  }

  lemma TrimmedDigits()
    ensures Trim("5") == "5" && Trim(" 7") == "7"
  {
    TrimSingle('5');
    TrimSpaced('7');
    assert " 7" == [' ', '7'];
  }

  lemma DecimalIds()
    ensures IdValues(["5"]) == [Int(Some(5))]
    ensures IdValues(["5", "7"]) == [Int(Some(5)), Int(Some(7))]
  {
    ParseIntRoundTrip(5);
    ParseIntRoundTrip(7);
    assert Decimal(5) == "5" && Decimal(7) == "7";
  }

  /** The handler's response: `data` plus the `metadata` block, or a 500 with the error. */
  datatype Response =
    | Ok(data: seq<Document>, total: nat, page: int, limit: int, totalPages: int)
    | Error(status: nat, error: StoreError)

  /**
   * `GET /placements`: page arithmetic, the filter, one windowed `find` and one
   * `countDocuments` with the same filter; any store failure becomes a 500.
   */
  method Placements(q: Query, store: Store) returns (resp: Response)
    ensures resp.Ok? <==>
      store.findFault.None? && Skip(Page(q), Limit(q)) >= 0 && store.countFault.None?
    ensures resp.Ok? ==>
      var matching := Matching(store.records, FilterSpec(q), store.regexTest);
      resp.page == Page(q) && resp.limit == Limit(q) && resp.total == |matching| &&
      resp.totalPages == TotalPages(|matching|, Limit(q)) &&
      resp.data == Window(matching, Skip(Page(q), Limit(q)), Limit(q))
    ensures resp.Ok? && resp.limit >= 1 ==> |resp.data| <= resp.limit
    ensures resp.Ok? && resp.page >= 1 && resp.limit >= 1 ==>
      (resp.data == [] <==> resp.page > resp.totalPages)
    ensures resp.Error? ==> resp.status == 500
    ensures resp.Error? && store.findFault.Some? ==>
      resp.error == Unavailable(store.findFault.value)
    ensures resp.Error? && store.findFault.None? && Skip(Page(q), Limit(q)) < 0 ==>
      resp.error == NegativeSkip(Skip(Page(q), Limit(q)))
    ensures resp.Error? && store.findFault.None? && Skip(Page(q), Limit(q)) >= 0 ==>
      resp.error == Unavailable(store.countFault.value)
  {
    var page := Page(q);
    var limit := Limit(q);
    var skip := Skip(page, limit);
    var filter := BuildFilter(q);
    var found := Find(store, filter, skip, limit);
    if found.Failure? {
      return Error(500, found.error);
    }
    var counted := CountDocuments(store, filter);
    if counted.Failure? {
      return Error(500, counted.error);
    }
    resp := Ok(found.value, counted.value, page, limit, TotalPages(counted.value, limit));
    var matching := Matching(store.records, filter, store.regexTest);
    if page >= 1 && limit >= 1 {
      WindowEmpty(matching, skip, limit);
      PageInRange(|matching|, page, limit);
    }
  }
}
