/**
 * A result set that is filled once from a raw query result: every fetched row
 * is hydrated into a copy of an object prototype, the objects are walked with
 * a cursor, and they can be flattened into a keyed array.
 */
module ResultSet {
  import opened Wrappers
  import opened PhpValues
  import opened PhpArrays

  /** One fetched row: column name to value. */
  type Row = map<string, Value>

  /** An exception thrown by the database layer (Doctrine\DBAL\Exception). */
  datatype DbalException = DbalException(message: string)

  /**
   * The raw result of one executed query, seen through the two operations the
   * result set uses: fetching all rows as associative records, and the row
   * count. Either may throw.
   */
  datatype RawResult = RawResult(
    fetchAllAssociative: Result<seq<Row>, DbalException>,
    rowCount: Result<int, DbalException>)

  /** The failures the result set itself reports (ResultSetException). */
  datatype ResultSetException =
    | AlreadyInitialized
    | FetchFailed(previous: DbalException)
    | MissingKeyField(field: string)
    | EmptyKey(keyName: string)

  /** The exception message for each failure. */
  function Message(e: ResultSetException): (r: string)
  {
    match e
    case AlreadyInitialized => "Result set already initialized!"
    case FetchFailed(_) => "Failed to fetch associative data from result!"
    case MissingKeyField(field) => "Result set key \"" + field + "\" does not exist!"
    case EmptyKey(keyName) => "Result set key \"" + keyName + "\" is empty!"
  }

  /**
   * The two key failures can be told apart by their messages, and each
   * message names its key: equal messages mean the same failure.
   */
  lemma KeyMessagesIdentifyFailure(e1: ResultSetException, e2: ResultSetException)
    requires e1.MissingKeyField? || e1.EmptyKey?
    requires e2.MissingKeyField? || e2.EmptyKey?
    requires Message(e1) == Message(e2)
    ensures e1 == e2
  {
    var m1, m2 := Message(e1), Message(e2);
    var k1 := if e1.MissingKeyField? then e1.field else e1.keyName;
    var k2 := if e2.MissingKeyField? then e2.field else e2.keyName;
    var prefix := "Result set key \"";
    var s1 := if e1.MissingKeyField? then "\" does not exist!" else "\" is empty!";
    var s2 := if e2.MissingKeyField? then "\" does not exist!" else "\" is empty!";
    assert m1 == prefix + k1 + s1 && m2 == prefix + k2 + s2;
    assert m1[|m1| - 2] == s1[|s1| - 2] && m2[|m2| - 2] == s2[|s2| - 2];
    assert s1 == s2;
    assert k1 == m1[|prefix|..|m1| - |s1|] == m2[|prefix|..|m2| - |s2|] == k2;
  }

  /**
   * How toArray keys each object: by its position, by a field of the row it
   * was hydrated from, or by a callback applied to the object.
   */
  datatype KeyStrategy<!O> = NoKey | FieldKey(name: string) | FnKey(f: O -> Value)

  /**
   * The key value toArray derives for the object at `index`, before it is
   * cast to a string; a row without the named field is an error.
   */
  function KeyValue<O>(withKey: KeyStrategy<O>, row: Row, index: nat, obj: O): (r: Result<Value, ResultSetException>)
    ensures r.Err? <==> withKey.FieldKey? && withKey.name !in row
    ensures r.Err? ==> r.error == MissingKeyField(withKey.name)
    ensures withKey.FieldKey? && withKey.name in row ==> r == Ok(row[withKey.name])
  {
    match withKey
    case FnKey(f) => Ok(f(obj))
    case FieldKey(name) => if name in row then Ok(row[name]) else Err(MissingKeyField(name))
    case NoKey => Ok(Int(index))
  }

  /**
   * How the strategy is named in the "is empty" message: a field by its name;
   * an absent strategy (null) and a callback both as the empty string.
   */
  function KeyLabel<O>(withKey: KeyStrategy<O>): (r: string)
  {
    match withKey
    case FieldKey(name) => name
    case NoKey => ""
    case FnKey(_) => ""
  }

  /**
   * The rendering the source's `sprintf('%s', $withKey)` actually attempts:
   * a Closure has no string form, so no ResultSetException is built for it.
   */
  function KeyLabelAsWritten<O>(withKey: KeyStrategy<O>): (r: Option<string>)
    ensures r.None? <==> withKey.FnKey?
    ensures r.Some? ==> r.value == KeyLabel(withKey)
  {
    match withKey
    case FieldKey(name) => Some(name)
    case NoKey => Some("")
    case FnKey(_) => None
  }

  /** The array key for the object at `index`: the key value as a string, which must not be empty. */
  function DeriveKey<O>(withKey: KeyStrategy<O>, row: Row, index: nat, obj: O): (r: Result<string, ResultSetException>)
    ensures r.Ok? ==> r.value != ""
    ensures r.Ok? <==> KeyValue(withKey, row, index, obj).Ok? && ToString(KeyValue(withKey, row, index, obj).value) != ""
    ensures withKey.NoKey? ==> r == Ok(NatToDecimal(index))
  {
    match KeyValue(withKey, row, index, obj)
    case Err(e) => Err(e)
    case Ok(key) =>
      var s := ToString(key);
      if s == "" then Err(EmptyKey(KeyLabel(withKey))) else Ok(s)
  }

  /** Every object before position `n` gets a key. */
  ghost predicate KeysBefore<O>(withKey: KeyStrategy<O>, data: seq<Row>, objects: seq<O>, n: nat)
    requires |data| == |objects| && n <= |objects|
  {
    forall j :: 0 <= j < n ==> DeriveKey(withKey, data[j], j, objects[j]).Ok?
  }

  /** One more object with a key extends the run of objects with keys. */
  lemma KeysBeforeStep<O>(withKey: KeyStrategy<O>, data: seq<Row>, objects: seq<O>, n: nat)
    requires |data| == |objects| && n < |objects|
    requires KeysBefore(withKey, data, objects, n) && DeriveKey(withKey, data[n], n, objects[n]).Ok?
    ensures KeysBefore(withKey, data, objects, n + 1)
  {
  }

  /**
   * The rest of toArray's loop from position `i` on, with the array `built`
   * so far: each object is assigned under its key (an earlier entry with the
   * same key keeps its place and takes the later object), and the first
   * failing key aborts the whole call.
   */
  function ToArrayFrom<O>(withKey: KeyStrategy<O>, data: seq<Row>, objects: seq<O>, i: nat, built: PhpArray<O>)
    : (r: Result<PhpArray<O>, ResultSetException>)
    requires |data| == |objects| && i <= |objects|
    decreases |objects| - i
  {
    if i == |objects| then Ok(built)
    else
      match DeriveKey(withKey, data[i], i, objects[i])
      case Err(e) => Err(e)
      case Ok(key) => ToArrayFrom(withKey, data, objects, i + 1, Assign(built, key, objects[i]))
  }

  /** What toArray returns for rows `data` hydrated into `objects`. */
  function ToArraySpec<O>(withKey: KeyStrategy<O>, data: seq<Row>, objects: seq<O>): (r: Result<PhpArray<O>, ResultSetException>)
    requires |data| == |objects|
  {
    ToArrayFrom(withKey, data, objects, 0, PhpArray([], map[]))
  }

  /**
   * The result set. `result` is present once initialize has succeeded;
   * `data` holds the fetched rows and `objects` their hydrations, position by
   * position; `cursor` is the internal array pointer of `objects`, which
   * stands at `|objects|` once it has run past the end.
   */
  class HydratingResultSet<O> {
    const hydration: (Row, O) -> O
    const objectPrototype: O

    var result: Option<RawResult>
    var data: seq<Row>
    var objects: seq<O>
    var cursor: nat

    /** The object invariant. */
    ghost predicate Consistent()
      reads this
    {
      match result
      case None => data == [] && objects == [] && cursor == 0
      case Some(raw) =>
        raw.fetchAllAssociative == Ok(data) &&
        |objects| == |data| &&
        (forall i :: 0 <= i < |data| ==> objects[i] == hydration(data[i], objectPrototype)) &&
        cursor <= |objects|
    }

    /** Whether initialize has succeeded (`isset($this->result)`). */
    predicate Initialized()
      reads this
    {
      result.Some?
    }

    constructor (hydration: (Row, O) -> O, objectPrototype: O)
      ensures Consistent() && !Initialized()
      ensures this.hydration == hydration && this.objectPrototype == objectPrototype
    {
      this.hydration := hydration;
      this.objectPrototype := objectPrototype;
      result := None;
      data := [];
      objects := [];
      cursor := 0;
    }

    /** The row count the raw result reports, whatever number of objects was hydrated. */
    method Count() returns (n: Result<int, DbalException>)
      requires Consistent() && Initialized()
      ensures n == result.value.rowCount
    {
      n := result.value.rowCount;
    }

    /** The object under the cursor, or null once the cursor is past the end. */
    method Current() returns (obj: Option<O>)
      requires Consistent() && Initialized()
      ensures obj.Some? <==> cursor < |objects|
      ensures obj.Some? ==> obj.value == objects[cursor] == hydration(data[cursor], objectPrototype)
    {
      obj := if cursor < |objects| then Some(objects[cursor]) else None;
    }

    /** The raw result that initialize was given. */
    method GetResult() returns (raw: RawResult)
      requires Consistent() && Initialized()
      ensures result == Some(raw)
      ensures raw.fetchAllAssociative == Ok(data)
    {
      raw := result.value;
    }

    /**
     * Fetches every row once and hydrates each into a clone of the prototype.
     * A second call, or a failing fetch, changes nothing.
     */
    method Initialize(raw: RawResult) returns (outcome: Result<(), ResultSetException>)
      requires Consistent()
      modifies this
      ensures Consistent()
      ensures old(Initialized()) ==> outcome == Err(AlreadyInitialized)
      ensures !old(Initialized()) && raw.fetchAllAssociative.Err? ==>
                outcome == Err(FetchFailed(raw.fetchAllAssociative.error))
      ensures outcome.Err? ==> unchanged(this)
      ensures outcome.Ok? <==> !old(Initialized()) && raw.fetchAllAssociative.Ok?
      ensures outcome.Ok? ==>
                result == Some(raw) && data == raw.fetchAllAssociative.value &&
                |objects| == |data| &&
                (forall i :: 0 <= i < |data| ==> objects[i] == hydration(data[i], objectPrototype)) &&
                cursor == 0
    {
      if result.Some? {
        return Err(AlreadyInitialized);
      }
      match raw.fetchAllAssociative
      case Err(e) =>
        return Err(FetchFailed(e));
      case Ok(rows) =>
        data := rows;
        result := Some(raw);
        objects := seq(|rows|, i requires 0 <= i < |rows| => hydration(rows[i], objectPrototype));
        cursor := 0;
        outcome := Ok(());
    }

    /** The cursor's position, or null once it is past the end. */
    method Key() returns (index: Option<nat>)
      requires Consistent() && Initialized()
      ensures index.Some? <==> cursor < |objects|
      ensures index.Some? ==> index.value == cursor
    {
      index := if cursor < |objects| then Some(cursor) else None;
    }

    /** Advances the cursor by one; past the end it stays past the end. */
    method Next()
      requires Consistent() && Initialized()
      modifies this`cursor
      ensures Consistent()
      ensures old(cursor) < |objects| ==> cursor == old(cursor) + 1
      ensures old(cursor) >= |objects| ==> cursor == old(cursor)
    {
      if cursor < |objects| {
        cursor := cursor + 1;
      }
    }

    /** Moves the cursor back to the first object. */
    method Rewind()
      requires Consistent() && Initialized()
      modifies this`cursor
      ensures Consistent()
      ensures cursor == 0
    {
      cursor := 0;
    }

    /**
     * Walks the objects from the start and files each under its derived key
     * in a fresh array, a later object overwriting an earlier one with the
     * same key in that key's place. The result does not depend on where the
     * cursor stood; afterwards it stands past the end, or at the first object
     * whose key failed.
     */
    method ToArray(withKey: KeyStrategy<O>) returns (r: Result<PhpArray<O>, ResultSetException>)
      requires Consistent() && Initialized()
      modifies this`cursor
      ensures Consistent()
      ensures r == ToArraySpec(withKey, data, objects)
      ensures r.Ok? ==> cursor == |objects|
      ensures r.Err? ==> cursor < |objects| && DeriveKey(withKey, data[cursor], cursor, objects[cursor]) == Err(r.error)
      ensures r.Err? ==> KeysBefore(withKey, data, objects, cursor)
    {
      Rewind();
      ghost var rows, objs := data, objects;
      ghost var spec := ToArraySpec(withKey, rows, objs);
      ghost var pos := 0;
      var built: PhpArray<O> := PhpArray([], map[]);
      var more := Valid();
      while more
        invariant Consistent() && Initialized() && data == rows && objects == objs && cursor == pos
        invariant more <==> pos < |objs|
        invariant ToArrayFrom(withKey, rows, objs, pos, built) == spec
        invariant KeysBefore(withKey, rows, objs, pos)
        decreases |objs| - pos
      {
        var obj := Current();
        var index := Key();
        var key := DeriveKey(withKey, data[index.value], index.value, obj.value);
        assert index.value == pos && obj.value == objs[pos];
        if key.Err? {
          return Err(key.error);
        }
        KeysBeforeStep(withKey, rows, objs, pos);
        built := Assign(built, key.value, obj.value);
        Next();
        pos := pos + 1;
        more := Valid();
      }
      r := Ok(built);
    }

    /** Whether the cursor is on an object (`current()` is not null). */
    method Valid() returns (b: bool)
      requires Consistent() && Initialized()
      ensures b <==> cursor < |objects|
    {
      var obj := Current();
      b := obj.Some?;
    }
  }
}
