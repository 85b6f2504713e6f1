/**
 * src/EdgeConfigSdkStorageWrapper.ts: the read-only wrapper that reads its dataset through
 * the `@vercel/edge-config` client. Reads are served from the dataset, every mutation
 * rejects with "… not implemented", and the queue operations do nothing.
 */
module SdkStorage {
  import opened Wrappers
  import opened Json
  import Store
  import VercelApi

  /** The client the wrapper reads through. */
  datatype Reader =
    | DefaultReader                                  // the package's default `get`
    | ConnectionStringReader(connectionString: string) // `createClient(connectionString).get`

  /**
   * The reader chosen at construction: a client built from the connection string exactly
   * when both the store id and the token are given, the default reader otherwise. The
   * connection string names that store and token.
   */
  function SelectReader(edgeConfigId: string, edgeConfigToken: string): (r: Reader)
    ensures r.ConnectionStringReader? <==> edgeConfigId != "" && edgeConfigToken != ""
    ensures r.ConnectionStringReader? && '?' !in edgeConfigId ==>
      VercelApi.ParseConnectionString(r.connectionString) == Some((edgeConfigId, edgeConfigToken))
  {
    if edgeConfigId != "" && edgeConfigToken != "" then
      ConnectionStringReader(VercelApi.ConnectionString(edgeConfigId, edgeConfigToken))
    else
      DefaultReader
  }

  /** The storage wrapper object; an option the caller left out is the empty string. */
  class EdgeConfigSdkStorageWrapper {
    const edgeConfigKey: string
    const reader: Reader
    /** The dataset: None until the first `connect` (the source's `undefined`). */
    var data: Option<Dataset>

    constructor (edgeConfigKey: string, edgeConfigId: string, edgeConfigToken: string)
      ensures this.edgeConfigKey == edgeConfigKey
      ensures reader == SelectReader(edgeConfigId, edgeConfigToken)
      ensures data == None
    {
      this.edgeConfigKey := edgeConfigKey;
      reader := SelectReader(edgeConfigId, edgeConfigToken);
      data := None;
    }

    /**
     * `connect`: a missing item key fails before anything is read. Otherwise `fetched` is
     * what `reader` answered for the item key: a rejection is passed on, a missing (falsy)
     * item becomes `{}`, and anything else becomes the dataset.
     */
    method Connect(fetched: Result<Option<Dataset>>) returns (o: Outcome)
      modifies this
      ensures edgeConfigKey == "" ==> o == Fail(Store.KEY_NOT_PROVIDED) && data == old(data)
      ensures edgeConfigKey != "" && fetched.Failure? ==> o == Fail(fetched.error) && data == old(data)
      ensures edgeConfigKey != "" && fetched.Success? ==> o == Pass && data == Some(fetched.value.GetOr(Empty))
    {
      if edgeConfigKey == "" {
        return Fail(Store.KEY_NOT_PROVIDED);
      }
      if fetched.Failure? {
        return Fail(fetched.error);
      }
      data := Some(fetched.value.GetOr(Empty));
      o := Pass;
    }

    /** `disconnect`: the dataset becomes `{}` at once, with no remote effect. */
    method Disconnect()
      modifies this
      ensures data == Some(Empty)
    {
      data := Some(Empty);
    }

    /** `get`: the raw stored value (not only strings), or null when absent. */
    method Get(key: string) returns (r: Result<Value>)
      ensures data.None? ==> r == Failure(Store.NOT_CONNECTED)
      ensures data.Some? ==> r == Success(Store.Get(data.value, key))
    {
      if data.None? {
        return Failure(Store.NOT_CONNECTED);
      }
      r := Success(Store.Get(data.value, key));
    }

    /** `getKeysByPrefix`: exactly the keys starting with `prefix`, each once, in key order. */
    method GetKeysByPrefix(prefix: string) returns (r: Result<seq<string>>)
      ensures data.None? ==> r == Failure(Store.NOT_CONNECTED)
      ensures data.Some? ==> r == Success(Store.KeysByPrefix(data.value, prefix))
    {
      if data.None? {
        return Failure(Store.NOT_CONNECTED);
      }
      r := Success(Store.KeysByPrefix(data.value, prefix));
    }

    /**
     * `getMany`: one raw value or null per requested key, in request order. An empty
     * request never reads the dataset, so it answers `[]` even before the first connect.
     */
    method GetMany(keys: seq<string>) returns (r: Result<seq<Value>>)
      ensures data.None? ==> r == if keys == [] then Success([]) else Failure(Store.NOT_CONNECTED)
      ensures data.Some? ==> r.Success? && |r.value| == |keys|
      ensures data.Some? ==> forall i | 0 <= i < |keys| :: r.value[i] == Store.Get(data.value, keys[i])
    {
      if data.None? {
        return if keys == [] then Success([]) else Failure(Store.NOT_CONNECTED);
      }
      r := Success(Store.GetMany(data.value, keys));
    }

    /** `itemContains`: true iff `key` holds a set that has `item`. */
    method ItemContains(key: string, item: string) returns (r: Result<bool>)
      ensures data.None? ==> r == Failure(Store.NOT_CONNECTED)
      ensures data.Some? ==> r == Success(Store.ItemContains(data.value, key, item))
    {
      if data.None? {
        return Failure(Store.NOT_CONNECTED);
      }
      r := Success(Store.ItemContains(data.value, key, item));
    }

    /** `getItems`: the members of the set at `key`, or `[]`. */
    method GetItems(key: string) returns (r: Result<seq<string>>)
      ensures data.None? ==> r == Failure(Store.NOT_CONNECTED)
      ensures data.Some? ==> r == Success(Store.GetItems(data.value, key))
    {
      if data.None? {
        return Failure(Store.NOT_CONNECTED);
      }
      r := Success(Store.GetItems(data.value, key));
    }

    // The mutations always reject; none of them may modify anything, so the dataset is
    // unchanged by construction.

    method Set(key: string, value: string) returns (o: Outcome)
      ensures o == Fail(Store.SET_NOT_IMPLEMENTED)
    {
      o := Fail(Store.SET_NOT_IMPLEMENTED);
    }

    method GetAndSet(key: string, value: string) returns (o: Outcome)
      ensures o == Fail(Store.GET_AND_SET_NOT_IMPLEMENTED)
    {
      o := Fail(Store.GET_AND_SET_NOT_IMPLEMENTED);
    }

    method Del(key: string) returns (o: Outcome)
      ensures o == Fail(Store.DEL_NOT_IMPLEMENTED)
    {
      o := Fail(Store.DEL_NOT_IMPLEMENTED);
    }

    method Incr(key: string) returns (o: Outcome)
      ensures o == Fail(Store.INCR_NOT_IMPLEMENTED)
    {
      o := Fail(Store.INCR_NOT_IMPLEMENTED);
    }

    method Decr(key: string) returns (o: Outcome)
      ensures o == Fail(Store.DECR_NOT_IMPLEMENTED)
    {
      o := Fail(Store.DECR_NOT_IMPLEMENTED);
    }

    method AddItems(key: string, items: seq<string>) returns (o: Outcome)
      ensures o == Fail(Store.ADD_ITEMS_NOT_IMPLEMENTED)
    {
      o := Fail(Store.ADD_ITEMS_NOT_IMPLEMENTED);
    }

    method RemoveItems(key: string, items: seq<string>) returns (o: Outcome)
      ensures o == Fail(Store.REMOVE_ITEMS_NOT_IMPLEMENTED)
    {
      o := Fail(Store.REMOVE_ITEMS_NOT_IMPLEMENTED);
    }

    /** `pushItems`: a no-op that resolves. */
    method PushItems(key: string, items: seq<string>) returns (o: Outcome)
      ensures o == Pass
    {
      o := Pass;
    }

    /** `popItems`: always resolves with no items. */
    method PopItems(key: string, count: int) returns (r: seq<string>)
      ensures r == []
    {
      r := [];
    }

    /** `getItemsCount`: always resolves with 0. */
    method GetItemsCount(key: string) returns (r: int)
      ensures r == 0
    {
      r := 0;
    }
  }
}
