/**
 * EdgeConfigApiStorageWrapper.ts: the read-write wrapper. It reads its dataset through
 * the Vercel management API, mutates it in place, and writes it back with an upsert on
 * disconnect.
 *
 * The source neither awaits the read on connect nor the upsert on disconnect (the upsert
 * is handed to the host's `waitUntil`). Each is modelled as two transitions: the call
 * itself, which returns the request it issues, and the arrival of the response
 * (`FetchCompleted`, `CommitCompleted`), which runs the promise's `.then` callback.
 */
module ApiStorage {
  import opened Wrappers
  import opened Json
  import Store
  import VercelApi

  const ID_NOT_PROVIDED := "Edge Config Id not provided"
  const TOKEN_NOT_PROVIDED := "API Token not provided"

  /**
   * The configuration check of `connect`: it fails exactly when a field is missing, with
   * the message for the first missing one in the order store id, item key, API token.
   */
  function ConfigCheck(edgeConfigId: string, edgeConfigKey: string, apiToken: string): (r: Outcome)
    ensures r.Pass? <==> edgeConfigId != "" && edgeConfigKey != "" && apiToken != ""
    ensures edgeConfigId == "" ==> r == Fail(ID_NOT_PROVIDED)
    ensures edgeConfigId != "" && edgeConfigKey == "" ==> r == Fail(Store.KEY_NOT_PROVIDED)
    ensures edgeConfigId != "" && edgeConfigKey != "" && apiToken == "" ==> r == Fail(TOKEN_NOT_PROVIDED)
  {
    if edgeConfigId == "" then Fail(ID_NOT_PROVIDED)
    else if edgeConfigKey == "" then Fail(Store.KEY_NOT_PROVIDED)
    else if apiToken == "" then Fail(TOKEN_NOT_PROVIDED)
    else Pass
  }

  /** The storage wrapper object; an option the caller left out is the empty string. */
  class EdgeConfigApiStorageWrapper {
    const edgeConfigId: string
    const teamId: string
    const apiToken: string
    const edgeConfigKey: string
    /** The dataset: None until the first `connect` (the source's `undefined`). */
    var data: Option<Dataset>

    constructor (edgeConfigId: string, teamId: string, apiToken: string, edgeConfigKey: string)
      ensures this.edgeConfigId == edgeConfigId && this.teamId == teamId
      ensures this.apiToken == apiToken && this.edgeConfigKey == edgeConfigKey
      ensures data == None
    {
      this.edgeConfigId := edgeConfigId;
      this.teamId := teamId;
      this.apiToken := apiToken;
      this.edgeConfigKey := edgeConfigKey;
      data := None;
    }

    /**
     * `connect`: resets the dataset to `{}` first, then checks the configuration; only a
     * complete configuration issues the read request, whose response arrives later.
     */
    method Connect() returns (o: Outcome, request: Option<VercelApi.Request>)
      modifies this
      ensures data == Some(Empty)
      ensures o == ConfigCheck(edgeConfigId, edgeConfigKey, apiToken)
      ensures request.Some? <==> o.Pass?
      ensures o.Pass? ==> request == Some(VercelApi.FetchRequest(edgeConfigId, edgeConfigKey, teamId, apiToken))
    {
      data := Some(Empty);
      o := ConfigCheck(edgeConfigId, edgeConfigKey, apiToken);
      if o.Pass? {
        request := Some(VercelApi.FetchRequest(edgeConfigId, edgeConfigKey, teamId, apiToken));
      } else {
        request := None;
      }
    }

    /**
     * The read has answered: a successful read replaces the dataset with the fetched one;
     * a failed read rejects a promise nobody handles, and the dataset stays as it is.
     */
    method FetchCompleted(response: VercelApi.FetchResponse)
      modifies this
      ensures VercelApi.ReadResult(response).Success? ==> data == Some(VercelApi.ReadResult(response).value)
      ensures VercelApi.ReadResult(response).Failure? ==> data == old(data)
    {
      var result := VercelApi.ReadResult(response);
      if result.Success? {
        data := Some(result.value);
      }
    }

    /**
     * `disconnect`: issues the upsert of the current dataset under the item key and hands
     * it to the host; the dataset itself is untouched until the upsert completes.
     */
    method Disconnect() returns (request: VercelApi.Request)
      ensures request == VercelApi.UpsertRequest(edgeConfigId, edgeConfigKey, teamId, apiToken, data)
      ensures request.items == Some([VercelApi.UpsertItem("upsert", edgeConfigKey, data)])
    {
      request := VercelApi.UpsertRequest(edgeConfigId, edgeConfigKey, teamId, apiToken, data);
    }

    /**
     * The upsert has settled: when its promise resolves the dataset is reset to `{}`;
     * when it rejects (a non-ok response) the dataset is kept.
     */
    method CommitCompleted(response: VercelApi.UpsertResponse)
      modifies this
      ensures VercelApi.UpsertResult(response).Pass? ==> data == Some(Empty)
      ensures VercelApi.UpsertResult(response).Fail? ==> data == old(data)
    {
      if VercelApi.UpsertResult(response).Pass? {
        data := Some(Empty);
      }
    }

    /** `get`: the raw stored value (a number stays a number), or null when absent. */
    method Get(key: string) returns (r: Result<Value>)
      ensures data.None? ==> r == Failure(Store.NOT_CONNECTED)
      ensures data.Some? ==> r == Success(Store.Get(data.value, key))
    {
      if data.None? {
        return Failure(Store.NOT_CONNECTED);
      }
      r := Success(Store.Get(data.value, key));
    }

    /** `set`: stores the string under `key`, touches no other key, and resolves with true. */
    method Set(key: string, value: string) returns (r: Result<bool>)
      modifies this
      ensures old(data).None? ==> r == Failure(Store.NOT_CONNECTED) && data == old(data)
      ensures old(data).Some? ==> r == Success(true) && data == Some(Store.Put(old(data).value, key, Str(value)))
    {
      if data.None? {
        return Failure(Store.NOT_CONNECTED);
      }
      data := Some(Store.Put(data.value, key, Str(value)));
      r := Success(true);
    }

    /** `getAndSet`: stores the string under `key` and resolves with the previous value or null. */
    method GetAndSet(key: string, value: string) returns (r: Result<Value>)
      modifies this
      ensures old(data).None? ==> r == Failure(Store.NOT_CONNECTED) && data == old(data)
      ensures old(data).Some? ==> r == Success(Store.Get(old(data).value, key))
      ensures old(data).Some? ==> data == Some(Store.Put(old(data).value, key, Str(value)))
    {
      if data.None? {
        return Failure(Store.NOT_CONNECTED);
      }
      var previous := Store.Get(data.value, key);
      data := Some(Store.Put(data.value, key, Str(value)));
      r := Success(previous);
    }

    /** `del`: removes `key`, whether or not it existed, and resolves with true. */
    method Del(key: string) returns (r: Result<bool>)
      modifies this
      ensures old(data).None? ==> r == Failure(Store.NOT_CONNECTED) && data == old(data)
      ensures old(data).Some? ==> r == Success(true) && data == Some(Store.Delete(old(data).value, key))
    {
      if data.None? {
        return Failure(Store.NOT_CONNECTED);
      }
      data := Some(Store.Delete(data.value, key));
      r := Success(true);
    }

    /** `getKeysByPrefix`: exactly the keys starting with `prefix`, each once, in key order. */
    method GetKeysByPrefix(prefix: string) returns (r: Result<seq<string>>)
      ensures data.None? ==> r == Failure(Store.NOT_CONNECTED)
      ensures data.Some? ==> r == Success(Store.KeysByPrefix(data.value, prefix))
    {
      if data.None? {
        return Failure(Store.NOT_CONNECTED);
      }
      r := Success(Store.KeysByPrefix(data.value, prefix));
    }

    /**
     * `getMany`: one raw value or null per requested key, in request order. Because it
     * reads `(data && data[key]) ?? null`, it answers nulls instead of failing before the
     * first connect.
     */
    method GetMany(keys: seq<string>) returns (r: seq<Value>)
      ensures |r| == |keys|
      ensures forall i | 0 <= i < |keys| ::
        r[i] == if data.Some? then Store.Get(data.value, keys[i]) else Null
    {
      if data.None? {
        return seq(|keys|, _ => Null);
      }
      r := Store.GetMany(data.value, keys);
    }

    /** `incr`: stores and resolves with the counter after the increment. */
    method Incr(key: string) returns (r: Result<int>)
      modifies this
      ensures old(data).None? ==> r == Failure(Store.NOT_CONNECTED) && data == old(data)
      ensures old(data).Some? ==> data == Some(Store.Incr(old(data).value, key))
      ensures old(data).Some? ==> r.Success? && Store.Get(data.value, key) == Num(r.value)
    {
      if data.None? {
        return Failure(Store.NOT_CONNECTED);
      }
      data := Some(Store.Incr(data.value, key));
      r := Success(Store.Get(data.value, key).n);
    }

    /** `decr`: stores and resolves with the counter after the decrement. */
    method Decr(key: string) returns (r: Result<int>)
      modifies this
      ensures old(data).None? ==> r == Failure(Store.NOT_CONNECTED) && data == old(data)
      ensures old(data).Some? ==> data == Some(Store.Decr(old(data).value, key))
      ensures old(data).Some? ==> r.Success? && Store.Get(data.value, key) == Num(r.value)
    {
      if data.None? {
        return Failure(Store.NOT_CONNECTED);
      }
      data := Some(Store.Decr(data.value, key));
      r := Success(Store.Get(data.value, key).n);
    }

    /** `itemContains`: true iff `key` holds a set that has `item`; a wrong shape reads as absent. */
    method ItemContains(key: string, item: string) returns (r: Result<bool>)
      ensures data.None? ==> r == Failure(Store.NOT_CONNECTED)
      ensures data.Some? ==> r == Success(Store.ItemContains(data.value, key, item))
    {
      if data.None? {
        return Failure(Store.NOT_CONNECTED);
      }
      r := Success(Store.ItemContains(data.value, key, item));
    }

    /** `addItems`: the union without duplicates, replacing a value that is not a set. */
    method AddItems(key: string, items: seq<string>) returns (r: Result<bool>)
      modifies this
      ensures old(data).None? ==> r == Failure(Store.NOT_CONNECTED) && data == old(data)
      ensures old(data).Some? ==> r == Success(true) && data == Some(Store.AddItems(old(data).value, key, items))
    {
      if data.None? {
        return Failure(Store.NOT_CONNECTED);
      }
      data := Some(Store.AddItems(data.value, key, items));
      r := Success(true);
    }

    /** `removeItems`: filters the items out of a set; nothing changes when `key` holds no set. */
    method RemoveItems(key: string, items: seq<string>) returns (r: Result<bool>)
      modifies this
      ensures old(data).None? ==> r == Failure(Store.NOT_CONNECTED) && data == old(data)
      ensures old(data).Some? ==> r == Success(true) && data == Some(Store.RemoveItems(old(data).value, key, items))
    {
      if data.None? {
        return Failure(Store.NOT_CONNECTED);
      }
      data := Some(Store.RemoveItems(data.value, key, items));
      r := Success(true);
    }

    /** `getItems`: the members of the set at `key`, or `[]`. */
    method GetItems(key: string) returns (r: Result<seq<string>>)
      ensures data.None? ==> r == Failure(Store.NOT_CONNECTED)
      ensures data.Some? ==> r == Success(Store.GetItems(data.value, key))
    {
      if data.None? {
        return Failure(Store.NOT_CONNECTED);
      }
      r := Success(Store.GetItems(data.value, key));
    }

    /** `pushItems`: a no-op that resolves (queues are never used by this integration). */
    method PushItems(key: string, items: seq<string>) returns (o: Outcome)
      ensures o == Pass
    {
      o := Pass;
    }

    /** `popItems`: always resolves with no items. */
    method PopItems(key: string, count: int) returns (r: seq<string>)
      ensures r == []
    {
      r := [];
    }

    /** `getItemsCount`: always resolves with 0. */
    method GetItemsCount(key: string) returns (r: int)
      ensures r == 0
    {
      r := 0;
    }
  }
}
