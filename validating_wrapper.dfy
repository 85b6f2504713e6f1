/**
 * src/EdgeConfigWrapper.ts: the read-only wrapper that validates what it reads. It only
 * accepts a dataset that carries the flag-definition marker, serves `get` as strings
 * (serialising any other truthy value), and rejects every mutation and queue operation.
 */
module ValidatingStorage {
  import opened Wrappers
  import opened Json
  import Store

  const CLIENT_NOT_PROVIDED := "Edge Config client not provided"
  const PUSH_ITEMS_NOT_IMPLEMENTED := "PUSH ITEMS not implemented"
  const POP_ITEMS_NOT_IMPLEMENTED := "POP ITEMS not implemented"
  const GET_ITEMS_COUNT_NOT_IMPLEMENTED := "GET ITEMS COUNT not implemented"

  /** The key every genuine flag-definition snapshot holds. */
  const MARKER := "SPLITIO.splits.till"

  function NoDefinitionsMessage(itemKey: string): string {
    "No feature flag definitions were found in item key '" + itemKey + "'"
  }

  /** The Edge Config client handed to the wrapper; its answers are the inputs of Connect. */
  datatype EdgeConfigClient = EdgeConfigClient

  /** The options object; an item key the caller left out is the empty string. */
  datatype Options = Options(edgeConfigItemKey: string, edgeConfig: Option<EdgeConfigClient>)

  /**
   * The construction checks: missing options or a missing item key fail with "Edge Config
   * Item Key not provided"; otherwise a missing client fails with "Edge Config client not
   * provided".
   */
  function CheckOptions(options: Option<Options>): (r: Outcome)
    ensures r.Pass? <==> options.Some? && options.value.edgeConfigItemKey != "" && options.value.edgeConfig.Some?
    ensures (options.None? || options.value.edgeConfigItemKey == "") ==> r == Fail(Store.KEY_NOT_PROVIDED)
    ensures options.Some? && options.value.edgeConfigItemKey != "" && options.value.edgeConfig.None? ==>
      r == Fail(CLIENT_NOT_PROVIDED)
  {
    var itemKey := if options.Some? then options.value.edgeConfigItemKey else "";
    var client := if options.Some? then options.value.edgeConfig else None;
    if itemKey == "" then Fail(Store.KEY_NOT_PROVIDED)
    else if client.None? then Fail(CLIENT_NOT_PROVIDED)
    else Pass
  }

  /** `typeof v === 'object'` (true for null and for arrays as well). */
  predicate IsObjectType(v: Value) {
    v.Null? || v.StrList? || v.Obj?
  }

  /** `v.hasOwnProperty(p)` for an object or an array value (an array owns its indices and `length`). */
  predicate HasOwnKey(v: Value, p: string)
    requires v.StrList? || v.Obj?
  {
    match v
    case StrList(items) => p == "length" || exists i | 0 <= i < |items| :: p == IndexName(i)
    case Obj(o) => p in o.vals
  }

  /** The property name of array index `i`. */
  function IndexName(i: nat): string {
    var digit := "0123456789"[i % 10];
    if i < 10 then [digit] else IndexName(i / 10) + [digit]
  }

  /** Property names of array indices are made of digits only. */
  lemma {:induction false} IndexNameDigits(i: nat)
    ensures forall c | c in IndexName(i) :: '0' <= c <= '9'
  {
    if i >= 10 {
      IndexNameDigits(i / 10);
    }
  }

  /**
   * The validation of `connect`: the value is a non-null object with its own
   * `SPLITIO.splits.till` key. No array passes, since an array owns only its indices and
   * `length`.
   */
  function IsFlagDefinitions(v: Value): (r: bool)
    ensures r <==> v.Obj? && MARKER in v.fields.vals
  {
    assert v.StrList? ==> !HasOwnKey(v, MARKER) by {
      if v.StrList? {
        forall i | 0 <= i < |v.items| ensures MARKER != IndexName(i) {
          IndexNameDigits(i);
          assert IndexName(i)[0] in IndexName(i);
          assert MARKER[0] == 'S';
        }
      }
    }
    IsObjectType(v) && v != Null && HasOwnKey(v, MARKER)
  }

  /**
   * `getSync(key)`: a truthy string as it is, any other truthy value as its serialisation,
   * and null for an absent or falsy value (null, false, 0, "").
   */
  function Serialized(d: Dataset, key: string, stringify: Value -> string): (r: Option<string>)
    ensures r.None? <==> !Truthy(Store.Get(d, key))
    ensures r.Some? && Store.Get(d, key).Str? ==> r.value == Store.Get(d, key).s
    ensures r.Some? && !Store.Get(d, key).Str? ==> r.value == stringify(Store.Get(d, key))
  {
    var item := Store.Get(d, key);
    if Truthy(item) then
      if item.Str? then Some(item.s) else Some(stringify(item))
    else
      None
  }

  /** `keys.map(getSync)`: one serialised value or null per requested key, in request order. */
  function SerializedMany(d: Dataset, keys: seq<string>, stringify: Value -> string): (r: seq<Option<string>>)
    ensures |r| == |keys|
    ensures forall i | 0 <= i < |keys| :: r[i] == Serialized(d, keys[i], stringify)
  {
    if keys == [] then [] else [Serialized(d, keys[0], stringify)] + SerializedMany(d, keys[1..], stringify)
  }

  /** The storage wrapper object. */
  class EdgeConfigWrapper {
    const edgeConfigItemKey: string
    /** `JSON.stringify`, which the model leaves uninterpreted. */
    const stringify: Value -> string
    /** The dataset: None until a `connect` succeeds (the source's `undefined`). */
    var data: Option<Dataset>

    constructor (edgeConfigItemKey: string, stringify: Value -> string)
      ensures this.edgeConfigItemKey == edgeConfigItemKey && this.stringify == stringify
      ensures data == None
    {
      this.edgeConfigItemKey := edgeConfigItemKey;
      this.stringify := stringify;
      data := None;
    }

    /**
     * `connect`: `fetched` is what the client answered for the item key. A rejection is
     * passed on; a value that is not flag definitions fails naming the item key; in both
     * cases the dataset is not assigned. Otherwise the fetched object becomes the dataset.
     */
    method Connect(fetched: Result<Value>) returns (o: Outcome)
      requires fetched.Success? && fetched.value.Obj? ==> WellFormed(fetched.value.fields)
      modifies this
      ensures fetched.Failure? ==> o == Fail(fetched.error) && data == old(data)
      ensures fetched.Success? && !IsFlagDefinitions(fetched.value) ==>
        o == Fail(NoDefinitionsMessage(edgeConfigItemKey)) && data == old(data)
      ensures fetched.Success? && IsFlagDefinitions(fetched.value) ==>
        o == Pass && data.Some? && data.value == fetched.value.fields
    {
      if fetched.Failure? {
        return Fail(fetched.error);
      }
      if !IsFlagDefinitions(fetched.value) {
        return Fail(NoDefinitionsMessage(edgeConfigItemKey));
      }
      var d: Dataset := fetched.value.fields;
      data := Some(d);
      o := Pass;
    }

    /** `disconnect`: the dataset becomes `{}`. */
    method Disconnect()
      modifies this
      ensures data == Some(Empty)
    {
      data := Some(Empty);
    }

    /** `get`: strings pass through, other truthy values are serialised, the rest is null. */
    method Get(key: string) returns (r: Result<Option<string>>)
      ensures data.None? ==> r == Failure(Store.NOT_CONNECTED)
      ensures data.Some? ==> r == Success(Serialized(data.value, key, stringify))
    {
      if data.None? {
        return Failure(Store.NOT_CONNECTED);
      }
      r := Success(Serialized(data.value, key, stringify));
    }

    /** `getKeysByPrefix`: exactly the keys starting with `prefix`, each once, in key order. */
    method GetKeysByPrefix(prefix: string) returns (r: Result<seq<string>>)
      ensures data.None? ==> r == Failure(Store.NOT_CONNECTED)
      ensures data.Some? ==> r == Success(Store.KeysByPrefix(data.value, prefix))
    {
      if data.None? {
        return Failure(Store.NOT_CONNECTED);
      }
      r := Success(Store.KeysByPrefix(data.value, prefix));
    }

    /**
     * `getMany`: element i is what `get(keys[i])` answers. An empty request never reads
     * the dataset, so it answers `[]` even before a connect has succeeded.
     */
    method GetMany(keys: seq<string>) returns (r: Result<seq<Option<string>>>)
      ensures data.None? ==> r == if keys == [] then Success([]) else Failure(Store.NOT_CONNECTED)
      ensures data.Some? ==> r.Success? && |r.value| == |keys|
      ensures data.Some? ==> forall i | 0 <= i < |keys| :: r.value[i] == Serialized(data.value, keys[i], stringify)
    {
      if data.None? {
        return if keys == [] then Success([]) else Failure(Store.NOT_CONNECTED);
      }
      r := Success(SerializedMany(data.value, keys, stringify));
    }

    /** `itemContains`: true iff `data[key]` is a list that has `item`. */
    method ItemContains(key: string, item: string) returns (r: Result<bool>)
      ensures data.None? ==> r == Failure(Store.NOT_CONNECTED)
      ensures data.Some? ==> r == Success(Store.ItemContains(data.value, key, item))
    {
      if data.None? {
        return Failure(Store.NOT_CONNECTED);
      }
      r := Success(Store.ItemContains(data.value, key, item));
    }

    /** `getItems`: the list at `key`, or `[]`. */
    method GetItems(key: string) returns (r: Result<seq<string>>)
      ensures data.None? ==> r == Failure(Store.NOT_CONNECTED)
      ensures data.Some? ==> r == Success(Store.GetItems(data.value, key))
    {
      if data.None? {
        return Failure(Store.NOT_CONNECTED);
      }
      r := Success(Store.GetItems(data.value, key));
    }

    // Every mutation and every queue operation rejects; none may modify anything.

    method Set(key: string, value: string) returns (o: Outcome)
      ensures o == Fail(Store.SET_NOT_IMPLEMENTED)
    {
      o := Fail(Store.SET_NOT_IMPLEMENTED);
    }

    method GetAndSet(key: string, value: string) returns (o: Outcome)
      ensures o == Fail(Store.GET_AND_SET_NOT_IMPLEMENTED)
    {
      o := Fail(Store.GET_AND_SET_NOT_IMPLEMENTED);
    }

    method Del(key: string) returns (o: Outcome)
      ensures o == Fail(Store.DEL_NOT_IMPLEMENTED)
    {
      o := Fail(Store.DEL_NOT_IMPLEMENTED);
    }

    method Incr(key: string) returns (o: Outcome)
      ensures o == Fail(Store.INCR_NOT_IMPLEMENTED)
    {
      o := Fail(Store.INCR_NOT_IMPLEMENTED);
    }

    method Decr(key: string) returns (o: Outcome)
      ensures o == Fail(Store.DECR_NOT_IMPLEMENTED)
    {
      o := Fail(Store.DECR_NOT_IMPLEMENTED);
    }

    method AddItems(key: string, items: seq<string>) returns (o: Outcome)
      ensures o == Fail(Store.ADD_ITEMS_NOT_IMPLEMENTED)
    {
      o := Fail(Store.ADD_ITEMS_NOT_IMPLEMENTED);
    }

    method RemoveItems(key: string, items: seq<string>) returns (o: Outcome)
      ensures o == Fail(Store.REMOVE_ITEMS_NOT_IMPLEMENTED)
    {
      o := Fail(Store.REMOVE_ITEMS_NOT_IMPLEMENTED);
    }

    method PushItems(key: string, items: seq<string>) returns (o: Outcome)
      ensures o == Fail(PUSH_ITEMS_NOT_IMPLEMENTED)
    {
      o := Fail(PUSH_ITEMS_NOT_IMPLEMENTED);
    }

    method PopItems(key: string, count: int) returns (o: Outcome)
      ensures o == Fail(POP_ITEMS_NOT_IMPLEMENTED)
    {
      o := Fail(POP_ITEMS_NOT_IMPLEMENTED);
    }

    method GetItemsCount(key: string) returns (o: Outcome)
      ensures o == Fail(GET_ITEMS_COUNT_NOT_IMPLEMENTED)
    {
      o := Fail(GET_ITEMS_COUNT_NOT_IMPLEMENTED);
    }
  }

  /**
   * `EdgeConfigWrapper(options)`: construction throws on incomplete options; otherwise
   * the new wrapper holds no dataset yet.
   */
  method Create(options: Option<Options>, stringify: Value -> string) returns (r: Result<EdgeConfigWrapper>)
    ensures CheckOptions(options).Fail? ==> r == Failure(CheckOptions(options).error)
    ensures CheckOptions(options).Pass? ==>
      && r.Success? && fresh(r.value)
      && r.value.edgeConfigItemKey == options.value.edgeConfigItemKey
      && r.value.data == None
  {
    var check := CheckOptions(options);
    if check.Fail? {
      return Failure(check.error);
    }
    var wrapper := new EdgeConfigWrapper(options.value.edgeConfigItemKey, stringify);
    r := Success(wrapper);
  }
}
