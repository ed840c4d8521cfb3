/**
 * Concrete uses of the result set, one per documented behaviour: rows are
 * hydrated into property bags holding the row itself, and each method states
 * what the caller observes.
 */
module ResultSetScenarios {
  import opened Wrappers
  import opened PhpValues
  import opened PhpArrays
  import opened ResultSet
  import opened ToArrayProperties

  const Foo: Row := map["id" := Int(123), "name" := Str("Foo")]
  const Bar: Row := map["id" := Int(456), "name" := Str("Bar")]
  const Foo2: Row := map["id" := Int(2), "name" := Str("Foo")]
  const Foo1: Row := map["id" := Int(1), "name" := Str("Foo")]
  const Baz2: Row := map["id" := Int(2), "name" := Str("Baz")]

  /** Hydration into a property bag: the object is the row itself. */
  function AsPropertyBag(row: Row, prototype: Row): (r: Row)
  {
    row
  }

  /** A callback reading one property of a hydrated object, null when it is missing. */
  function Property(name: string): (r: Row -> Value)
  {
    (o: Row) => if name in o then o[name] else Null
  }

  /** count() reports the raw result's row count even when no row was fetched. */
  method CountIsRawRowCount() returns (n: Result<int, DbalException>)
    ensures n == Ok(123)
  {
    var rs := new HydratingResultSet(AsPropertyBag, map[]);
    var init := rs.Initialize(RawResult(Ok([]), Ok(123)));
    n := rs.Count();
  }

  /** getResult() hands back the raw result initialize was given. */
  method GetResultIsGivenResult(raw: RawResult) returns (got: Result<RawResult, ResultSetException>)
    ensures raw.fetchAllAssociative.Ok? ==> got == Ok(raw)
    ensures raw.fetchAllAssociative.Err? ==> got == Err(FetchFailed(raw.fetchAllAssociative.error))
  {
    var rs := new HydratingResultSet(AsPropertyBag, map[]);
    var init := rs.Initialize(raw);
    if init.Err? {
      return Err(init.error);
    }
    var r := rs.GetResult();
    got := Ok(r);
  }

  /** initialize() hydrates the two fetched rows, in order. */
  method InitializeHydratesEachRow() returns (walked: seq<Row>)
    ensures walked == [Foo, Bar]
  {
    var rs := new HydratingResultSet(AsPropertyBag, map[]);
    var init := rs.Initialize(RawResult(Ok([Foo, Bar]), Err(DbalException("not asked"))));
    walked := [];
    var more := rs.Valid();
    while more
      invariant rs.Consistent() && rs.Initialized() && rs.objects == [Foo, Bar]
      invariant more <==> rs.cursor < 2
      invariant walked == rs.objects[..rs.cursor]
      decreases 2 - rs.cursor
    {
      var current := rs.Current();
      walked := walked + [current.value];
      rs.Next();
      more := rs.Valid();
    }
  }

  /** A second initialize() is rejected and leaves the first result in place. */
  method SecondInitializeFails(raw: RawResult) returns (second: Result<(), ResultSetException>, kept: RawResult)
    requires raw.fetchAllAssociative.Ok?
    ensures second == Err(AlreadyInitialized)
    ensures Message(second.error) == "Result set already initialized!"
    ensures kept == raw
  {
    var rs := new HydratingResultSet(AsPropertyBag, map[]);
    var first := rs.Initialize(raw);
    second := rs.Initialize(RawResult(Ok([Foo]), Ok(1)));
    kept := rs.GetResult();
  }

  /** A failing fetch is wrapped in "fetch failed" and leaves the set uninitialised, so it can still be initialised. */
  method FetchFailureIsWrapped(cause: DbalException) returns (first: Result<(), ResultSetException>, retry: Result<(), ResultSetException>)
    ensures first == Err(FetchFailed(cause))
    ensures Message(first.error) == "Failed to fetch associative data from result!"
    ensures retry.Ok?
  {
    var rs := new HydratingResultSet(AsPropertyBag, map[]);
    first := rs.Initialize(RawResult(Err(cause), Ok(0)));
    assert !rs.Initialized();
    retry := rs.Initialize(RawResult(Ok([]), Ok(0)));
  }

  /** A result set initialised with `rows`, hydrated into property bags. */
  method RowSet(rows: seq<Row>) returns (rs: HydratingResultSet<Row>)
    ensures fresh(rs) && rs.Consistent() && rs.Initialized()
    ensures rs.data == rs.objects == rows
  {
    rs := new HydratingResultSet(AsPropertyBag, map[]);
    var init := rs.Initialize(RawResult(Ok(rows), Ok(|rows|)));
  }

  /**
   * Two objects, each the row it was hydrated from, with different keys:
   * toArray lists them in order under their keys.
   */
  lemma ToArrayOfTwo(withKey: KeyStrategy<Row>, a: Row, b: Row, ka: string, kb: string)
    requires DeriveKey(withKey, a, 0, a) == Ok(ka) && DeriveKey(withKey, b, 1, b) == Ok(kb)
    requires ka != kb
    ensures ToArraySpec(withKey, [a, b], [a, b]) == Ok(PhpArray([ka, kb], map[ka := a, kb := b]))
  {
    assert [] + [ka] == [ka] && [ka] + [kb] == [ka, kb];
    var one := Assign(PhpArray([], map[]), ka, a);
    assert one == PhpArray([ka], map[ka := a]);
    assert Assign(one, kb, b) == PhpArray([ka, kb], map[ka := a, kb := b]);
    assert ToArrayFrom(withKey, [a, b], [a, b], 1, one) == Ok(PhpArray([ka, kb], map[ka := a, kb := b]));
  }

  /** toArray() without a strategy keys the objects "0" and "1". */
  method ToArrayByPositionOfTwoRows() returns (r: Result<PhpArray<Row>, ResultSetException>)
    ensures r == Ok(PhpArray(["0", "1"], map["0" := Foo, "1" := Bar]))
  {
    var rs := RowSet([Foo, Bar]);
    assert NatToDecimal(0) == "0" && NatToDecimal(1) == "1";
    ToArrayOfTwo(NoKey, Foo, Bar, "0", "1");
    r := rs.ToArray(NoKey);
  }

  /** toArray("id") keys the objects by their rows' ids. */
  method ToArrayByFieldOfTwoRows() returns (r: Result<PhpArray<Row>, ResultSetException>)
    ensures r == Ok(PhpArray(["123", "456"], map["123" := Foo, "456" := Bar]))
  {
    var rs := RowSet([Foo, Bar]);
    assert NatToDecimal(123) == "123" && NatToDecimal(456) == "456";
    ToArrayOfTwo(FieldKey("id"), Foo, Bar, "123", "456");
    r := rs.ToArray(FieldKey("id"));
  }

  /** toArray(fn) with a callback reading "id" keys the objects by id. */
  method ToArrayByIdCallbackOfTwoRows() returns (r: Result<PhpArray<Row>, ResultSetException>)
    ensures r == Ok(PhpArray(["123", "456"], map["123" := Foo, "456" := Bar]))
  {
    var rs := RowSet([Foo, Bar]);
    var byId := FnKey(Property("id"));
    assert NatToDecimal(123) == "123" && NatToDecimal(456) == "456";
    ToArrayOfTwo(byId, Foo, Bar, "123", "456");
    r := rs.ToArray(byId);
  }

  /** toArray(fn) with a callback reading "name" keys the objects by name. */
  method ToArrayByNameCallbackOfTwoRows() returns (r: Result<PhpArray<Row>, ResultSetException>)
    ensures r == Ok(PhpArray(["Foo", "Bar"], map["Foo" := Foo, "Bar" := Bar]))
  {
    var rs := RowSet([Foo, Bar]);
    var byName := FnKey(Property("name"));
    ToArrayOfTwo(byName, Foo, Bar, "Foo", "Bar");
    r := rs.ToArray(byName);
  }

  /**
   * toArray("id") over rows with ids 2, 1, 2: the third object replaces the
   * first under "2", which keeps its first place, ahead of "1".
   */
  method ToArrayOverwriteKeepsPlace() returns (r: Result<PhpArray<Row>, ResultSetException>)
    ensures r == Ok(PhpArray(["2", "1"], map["2" := Baz2, "1" := Foo1]))
  {
    var rs := RowSet([Foo2, Foo1, Baz2]);
    assert NatToDecimal(2) == "2" && NatToDecimal(1) == "1";
    var withId: KeyStrategy<Row> := FieldKey("id");
    assert [] + ["2"] == ["2"] && ["2"] + ["1"] == ["2", "1"];
    assert Assign(PhpArray([], map[]), "2", Foo2) == PhpArray(["2"], map["2" := Foo2]);
    assert Assign(PhpArray(["2"], map["2" := Foo2]), "1", Foo1) == PhpArray(["2", "1"], map["2" := Foo2, "1" := Foo1]);
    assert Assign(PhpArray(["2", "1"], map["2" := Foo2, "1" := Foo1]), "2", Baz2) == PhpArray(["2", "1"], map["2" := Baz2, "1" := Foo1]);
    assert ToArrayFrom(withId, [Foo2, Foo1, Baz2], [Foo2, Foo1, Baz2], 2, PhpArray(["2", "1"], map["2" := Foo2, "1" := Foo1]))
        == Ok(PhpArray(["2", "1"], map["2" := Baz2, "1" := Foo1]));
    assert ToArrayFrom(withId, [Foo2, Foo1, Baz2], [Foo2, Foo1, Baz2], 1, PhpArray(["2"], map["2" := Foo2]))
        == Ok(PhpArray(["2", "1"], map["2" := Baz2, "1" := Foo1]));
    r := rs.ToArray(withId);
  }

  /**
   * Keyed by a field no row has, toArray() fails with "does not exist" at the
   * first object, where the cursor stays.
   */
  method ToArrayMissingFieldFails() returns (r: Result<PhpArray<Row>, ResultSetException>, at: nat)
    ensures r == Err(MissingKeyField("email"))
    ensures Message(r.error) == "Result set key \"email\" does not exist!"
    ensures at == 0
  {
    var rs := RowSet([Foo, Bar]);
    r := rs.ToArray(FieldKey("email"));
    at := rs.cursor;
  }

  /**
   * With a callback whose key casts to "", the source reaches its "is empty"
   * throw with the Closure as the message argument, which PHP cannot render:
   * no "is empty" ResultSetException is built.
   */
  lemma EmptyCallbackKeyHasNoMessage()
    ensures DeriveKey(FnKey(Property("email")), Foo, 0, Foo).Err?
    ensures KeyLabelAsWritten(FnKey(Property("email"))) == None
  {
  }

  /** The corrected behaviour: the same call fails with "is empty". */
  method EmptyCallbackKeyFails() returns (r: Result<PhpArray<Row>, ResultSetException>)
    ensures r == Err(EmptyKey(""))
    ensures Message(r.error) == "Result set key \"\" is empty!"
  {
    var rs := RowSet([Foo, Bar]);
    r := rs.ToArray(FnKey(Property("email")));
  }
}
