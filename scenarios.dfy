/**
 * Whole sessions against each wrapper variant, with the answers every call gives. They
 * follow the sessions of the repository's own test files for the three variants; each
 * session is split into phases, and each phase states the dataset it leaves behind.
 */
module Scenarios {
  import opened Wrappers
  import opened Json
  import Utils
  import Store
  import VercelApi
  import ApiStorage
  import SdkStorage
  import ValidatingStorage

  /** Two counters, at 3 and 2, created in that order. */
  const Counters: Dataset := Object(["count1", "count2"], map["count1" := Num(3), "count2" := Num(2)])

  /** The read-write variant: connecting to an empty item leaves `{}` once the read answers. */
  method ApiConnect() returns (w: ApiStorage.EdgeConfigApiStorageWrapper, o: Outcome)
    ensures fresh(w) && w.data == Some(Empty) && o == Pass
    ensures w.edgeConfigId == "edgeConfigId" && w.teamId == "teamId" && w.edgeConfigKey == "edgeConfigKey"
  {
    w := new ApiStorage.EdgeConfigApiStorageWrapper("edgeConfigId", "teamId", "apiToken", "edgeConfigKey");
    var request;
    o, request := w.Connect();
    w.FetchCompleted(VercelApi.FetchResponse(200, Empty));
  }

  /**
   * Write a string, swap it for another, delete it: each read sees the last write, and
   * `set` and `del` both answer true.
   */
  method ApiStrings(w: ApiStorage.EdgeConfigApiStorageWrapper)
    returns (gets: seq<Result<Value>>, acks: seq<Result<bool>>)
    requires w.data == Some(Empty)
    modifies w
    ensures gets == [Success(Null), Success(Str("value1")), Success(Str("value1")), Success(Str("value2")), Success(Null)]
    ensures acks == [Success(true), Success(true)]
    ensures w.data == Some(Empty)
  {
    var g0 := w.Get("key");
    var s0 := w.Set("key", "value1");
    var g1 := w.Get("key");
    var g2 := w.GetAndSet("key", "value2");
    Store.PutPut(Empty, "key", Str("value1"), Str("value2"));
    var g3 := w.Get("key");
    var d0 := w.Del("key");
    Store.PutThenDelete(Empty, "key", Str("value2"));
    var g4 := w.Get("key");
    gets := [g0, g1, g2, g3, g4];
    acks := [s0, d0];
  }

  /** Count `count1` up four times and `count2` up three times, then each down once. */
  method ApiCounters(w: ApiStorage.EdgeConfigApiStorageWrapper) returns (counts: seq<Result<int>>)
    requires w.data == Some(Empty)
    modifies w
    ensures counts == [Success(1), Success(2), Success(3), Success(4), Success(1), Success(2), Success(3), Success(3), Success(2)]
    ensures w.data == Some(Counters)
  {
    var up := ApiCountersUp(w);
    var c7 := w.Decr("count1");
    var c8 := w.Decr("count2");
    counts := up + [c7, c8];
    forall k ensures Store.Get(w.data.value, k) == Store.Get(Counters, k) {
    }
    Store.Extensionality(w.data.value, Counters);
  }

  /** The counting-up half: `count1` reaches 4 and `count2` reaches 3, in that key order. */
  method ApiCountersUp(w: ApiStorage.EdgeConfigApiStorageWrapper) returns (counts: seq<Result<int>>)
    requires w.data == Some(Empty)
    modifies w
    ensures counts == [Success(1), Success(2), Success(3), Success(4), Success(1), Success(2), Success(3)]
    ensures w.data.Some? && w.data.value.keys == ["count1", "count2"]
    ensures Store.Get(w.data.value, "count1") == Num(4) && Store.Get(w.data.value, "count2") == Num(3)
    ensures forall k | k != "count1" && k != "count2" :: Store.Get(w.data.value, k) == Null
  {
    var up1 := CountUp(w, "count1", 4);
    assert up1 == [up1[0], up1[1], up1[2], up1[3]];
    var up2 := CountUp(w, "count2", 3);
    assert up2 == [up2[0], up2[1], up2[2]];
    counts := up1 + up2;
  }

  /**
   * `incr` on a key that is absent `n` times in a row: the answers are 1 to n, the key
   * holds n and is added once at the end of the key order, and no other key changes.
   */
  method CountUp(w: ApiStorage.EdgeConfigApiStorageWrapper, key: string, n: nat) returns (counts: seq<Result<int>>)
    requires w.data.Some? && !HasOwnProperty(w.data.value, key) && n > 0
    modifies w
    ensures w.data.Some? && Store.Get(w.data.value, key) == Num(n)
    ensures w.data.value.keys == old(w.data.value.keys) + [key]
    ensures forall k | k != key :: Store.Get(w.data.value, k) == Store.Get(old(w.data.value), k)
    ensures |counts| == n && forall i | 0 <= i < n :: counts[i] == Success(i + 1)
  {
    var first := w.Incr(key);
    counts := [first];
    var i := 1;
    while i < n
      invariant 1 <= i <= n
      invariant w.data.Some? && Store.Get(w.data.value, key) == Num(i)
      invariant w.data.value.keys == old(w.data.value.keys) + [key]
      invariant forall k | k != key :: Store.Get(w.data.value, k) == Store.Get(old(w.data.value), k)
      invariant |counts| == i && forall j | 0 <= j < i :: counts[j] == Success(j + 1)
    {
      var c := w.Incr(key);
      counts := counts + [c];
      i := i + 1;
    }
  }

  /** Prefix listing keeps key order; `getMany` answers the raw numbers. */
  method ApiReadCounters(w: ApiStorage.EdgeConfigApiStorageWrapper)
    returns (prefixed: seq<Result<seq<string>>>, many: seq<Value>)
    requires w.data == Some(Counters)
    ensures prefixed == [Success(["count1", "count2"]), Success(["count2"])]
    ensures many == [Num(3), Num(2)]
  {
    many := w.GetMany(["count1", "count2"]);
    assert many == [many[0], many[1]];
    var p0 := w.GetKeysByPrefix("c");
    var p1 := w.GetKeysByPrefix("count2");
    prefixed := [p0, p1];
    CountersByPrefix();
  }

  /** The prefix "c" lists both counters in creation order; "count2" lists only the second. */
  lemma CountersByPrefix()
    ensures Store.KeysByPrefix(Counters, "c") == ["count1", "count2"]
    ensures Store.KeysByPrefix(Counters, "count2") == ["count2"]
  {
    assert "c" <= "count1" && "c" <= "count2";
    assert "count1"[5] != "count2"[5];
    FilterTwo("count1", "count2", Store.HasPrefix("c"));
    FilterTwo("count1", "count2", Store.HasPrefix("count2"));
  }

  /**
   * Add two items, then a third, then remove the first and the third; both `addItems` and
   * the `removeItems` answer true.
   */
  method ApiSets(w: ApiStorage.EdgeConfigApiStorageWrapper)
    returns (items: Result<seq<string>>, contains: seq<Result<bool>>, acks: seq<Result<bool>>)
    requires w.data.Some? && !HasOwnProperty(w.data.value, "set")
    modifies w
    ensures items == Success(["item1", "item2", "item3"])
    ensures contains == [Success(false), Success(true)]
    ensures acks == [Success(true), Success(true), Success(true)]
  {
    var added;
    items, added := ApiSetsAdd(w);
    var removed;
    contains, removed := ApiSetsRemove(w);
    acks := added + [removed];
  }

  /** The adding half: the set holds the three items in the order they were added. */
  method ApiSetsAdd(w: ApiStorage.EdgeConfigApiStorageWrapper)
    returns (items: Result<seq<string>>, acks: seq<Result<bool>>)
    requires w.data.Some? && !HasOwnProperty(w.data.value, "set")
    modifies w
    ensures w.data.Some? && Store.GetItems(w.data.value, "set") == ["item1", "item2", "item3"]
    ensures items == Success(["item1", "item2", "item3"])
    ensures acks == [Success(true), Success(true)]
  {
    var a0 := w.AddItems("set", ["item1", "item2"]);
    assert Store.GetItems(w.data.value, "set") == ["item1", "item2"] by {
      assert [] + ["item1", "item2"] == ["item1", "item2"];
      Utils.UniqueOfDistinct(["item1", "item2"]);
    }
    var a1 := w.AddItems("set", ["item3"]);
    assert Store.GetItems(w.data.value, "set") == ["item1", "item2", "item3"] by {
      assert ["item1", "item2"] + ["item3"] == ["item1", "item2", "item3"];
      Utils.UniqueOfDistinct(["item1", "item2", "item3"]);
    }
    items := w.GetItems("set");
    acks := [a0, a1];
  }

  /** The removing half: removing the first and the third item keeps the second. */
  method ApiSetsRemove(w: ApiStorage.EdgeConfigApiStorageWrapper)
    returns (contains: seq<Result<bool>>, ack: Result<bool>)
    requires w.data.Some? && Store.GetItems(w.data.value, "set") == ["item1", "item2", "item3"]
    modifies w
    ensures contains == [Success(false), Success(true)]
    ensures ack == Success(true)
  {
    ack := w.RemoveItems("set", ["item1", "item3"]);
    var i0 := w.ItemContains("set", "item1");
    var i1 := w.ItemContains("set", "item2");
    contains := [i0, i1];
  }

  /**
   * The whole read-write session: every answer, with `set`, `del`, both `addItems` and the
   * `removeItems` answering true; after a successful upsert the dataset is `{}` again.
   */
  method ApiSession()
    returns (gets: seq<Result<Value>>, counts: seq<Result<int>>, prefixed: seq<Result<seq<string>>>,
             many: seq<Value>, items: Result<seq<string>>, contains: seq<Result<bool>>,
             acks: seq<Result<bool>>, upsert: VercelApi.Request, finalData: Option<Dataset>)
    ensures acks == [Success(true), Success(true), Success(true), Success(true), Success(true)]
    ensures gets == [Success(Null), Success(Str("value1")), Success(Str("value1")), Success(Str("value2")), Success(Null)]
    ensures counts == [Success(1), Success(2), Success(3), Success(4), Success(1), Success(2), Success(3), Success(3), Success(2)]
    ensures prefixed == [Success(["count1", "count2"]), Success(["count2"])]
    ensures many == [Num(3), Num(2)]
    ensures items == Success(["item1", "item2", "item3"])
    ensures contains == [Success(false), Success(true)]
    ensures upsert.httpMethod == "PATCH" && VercelApi.ParseItemsUrl(upsert.url) == Some(("edgeConfigId", "teamId"))
    ensures finalData == Some(Empty)
  {
    var w, o := ApiConnect();
    var stringAcks, setAcks;
    gets, stringAcks := ApiStrings(w);
    counts := ApiCounters(w);
    prefixed, many := ApiReadCounters(w);
    items, contains, setAcks := ApiSets(w);
    acks := stringAcks + setAcks;
    upsert := w.Disconnect();
    assert '/' !in "edgeConfigId";
    w.CommitCompleted(VercelApi.Responded(200));
    finalData := w.data;
  }

  /** The dataset the read-only SDK variant reads: two counters, a string and a set. */
  const SdkData: Dataset := Object(["count1", "count2", "key", "set"],
    map["count1" := Num(3), "count2" := Num(2), "key" := Str("value"), "set" := StrList(["item1", "item2", "item3"])])

  /** Without an item key the SDK variant's connect fails and reads nothing. */
  method SdkMissingKey() returns (o: Outcome)
    ensures o == Fail(Store.KEY_NOT_PROVIDED)
  {
    var w := new SdkStorage.EdgeConfigSdkStorageWrapper("", "", "");
    o := w.Connect(Success(Some(SdkData)));
  }

  /**
   * The SDK variant reads through the default client unless both the store id and the
   * token are given: an API token under another option name does not count.
   */
  lemma SdkReaderChoice()
    ensures SdkStorage.SelectReader("", "") == SdkStorage.DefaultReader
    ensures SdkStorage.SelectReader("edgeConfigId", "") == SdkStorage.DefaultReader
    ensures SdkStorage.SelectReader("edgeConfigId", "token").ConnectionStringReader?
  {
  }

  /** The SDK variant connected to an item holding `SdkData`. */
  method SdkConnected() returns (w: SdkStorage.EdgeConfigSdkStorageWrapper, o: Outcome)
    ensures fresh(w) && w.data == Some(SdkData) && o == Pass
  {
    w := new SdkStorage.EdgeConfigSdkStorageWrapper("edgeConfigKey", "", "");
    o := w.Connect(Success(Some(SdkData)));
  }

  /** The SDK variant serves raw values, prefix listings in key order, and set membership. */
  method SdkSession() returns (gets: seq<Result<Value>>, prefixed: seq<Result<seq<string>>>,
                               many: Result<seq<Value>>, items: Result<seq<string>>, contains: seq<Result<bool>>)
    ensures gets == [Success(Str("value")), Success(Null)]
    ensures prefixed == [Success(["count1", "count2"]), Success(["count2"])]
    ensures many == Success([Num(3), Num(2)])
    ensures items == Success(["item1", "item2", "item3"])
    ensures contains == [Success(true), Success(false)]
  {
    var w, o := SdkConnected();
    gets, many := SdkValues(w);
    prefixed := SdkPrefixes(w);
    items, contains := SdkSets(w);
  }

  method SdkValues(w: SdkStorage.EdgeConfigSdkStorageWrapper) returns (gets: seq<Result<Value>>, many: Result<seq<Value>>)
    requires w.data == Some(SdkData)
    ensures gets == [Success(Str("value")), Success(Null)]
    ensures many == Success([Num(3), Num(2)])
  {
    var m := w.GetMany(["count1", "count2"]);
    assert m.value == [m.value[0], m.value[1]];
    many := m;
    var g0 := w.Get("key");
    var g1 := w.Get("key2");
    gets := [g0, g1];
  }

  method SdkPrefixes(w: SdkStorage.EdgeConfigSdkStorageWrapper) returns (prefixed: seq<Result<seq<string>>>)
    requires w.data == Some(SdkData)
    ensures prefixed == [Success(["count1", "count2"]), Success(["count2"])]
  {
    var p0 := w.GetKeysByPrefix("c");
    var p1 := w.GetKeysByPrefix("count2");
    prefixed := [p0, p1];
    SdkDataByPrefix();
  }

  method SdkSets(w: SdkStorage.EdgeConfigSdkStorageWrapper) returns (items: Result<seq<string>>, contains: seq<Result<bool>>)
    requires w.data == Some(SdkData)
    ensures items == Success(["item1", "item2", "item3"])
    ensures contains == [Success(true), Success(false)]
  {
    items := w.GetItems("set");
    var i0 := w.ItemContains("set", "item2");
    var i1 := w.ItemContains("set", "item4");
    contains := [i0, i1];
  }

  /** In the SDK dataset, "c" lists both counters in order and "count2" only the second. */
  lemma SdkDataByPrefix()
    ensures Store.KeysByPrefix(SdkData, "c") == ["count1", "count2"]
    ensures Store.KeysByPrefix(SdkData, "count2") == ["count2"]
  {
    assert "c" <= "count1" && "c" <= "count2";
    assert "count1"[5] != "count2"[5];
    assert "key"[0] == 'k' && "set"[0] == 's';
    FilterFour("count1", "count2", "key", "set", Store.HasPrefix("c"));
    FilterFour("count1", "count2", "key", "set", Store.HasPrefix("count2"));
  }

  /** The flag definitions the validating variant reads, with the marker key first. */
  const Split1: Object := Object(["name"], map["name" := Str("split1")])
  const Definitions: Dataset := Object(["SPLITIO.splits.till", "split1", "split2", "key", "set"],
    map["SPLITIO.splits.till" := Str("1682089737502"), "split1" := Obj(Split1),
        "split2" := Str("{ \"name\": \"split2\" }"), "key" := Str("value"),
        "set" := StrList(["item1", "item2", "item3"])])

  /** Construction fails without options, without an item key, or without a client. */
  method ValidatingMisconfigured(stringify: Value -> string) returns (r: seq<Result<ValidatingStorage.EdgeConfigWrapper>>)
    ensures |r| == 3
    ensures r[0] == Failure(Store.KEY_NOT_PROVIDED) && r[1] == Failure(Store.KEY_NOT_PROVIDED)
    ensures r[2] == Failure(ValidatingStorage.CLIENT_NOT_PROVIDED)
  {
    var r0 := ValidatingStorage.Create(None, stringify);
    var r1 := ValidatingStorage.Create(Some(ValidatingStorage.Options("", None)), stringify);
    var r2 := ValidatingStorage.Create(Some(ValidatingStorage.Options("some-key", None)), stringify);
    r := [r0, r1, r2];
  }

  /** An item that is an object without the marker key is refused, naming the item key. */
  method ValidatingInvalidItem(stringify: Value -> string) returns (o: Outcome)
    ensures o == Fail("No feature flag definitions were found in item key 'invalidItem'")
  {
    var w := new ValidatingStorage.EdgeConfigWrapper("invalidItem", stringify);
    o := w.Connect(Success(Obj(Empty)));
  }

  /** The validating variant connected to an item holding `Definitions`. */
  method ValidatingConnected(stringify: Value -> string) returns (w: ValidatingStorage.EdgeConfigWrapper, o: Outcome)
    ensures fresh(w) && w.data == Some(Definitions) && w.stringify == stringify && o == Pass
  {
    w := new ValidatingStorage.EdgeConfigWrapper("edgeConfigItemKey", stringify);
    o := w.Connect(Success(Obj(Definitions)));
  }

  /**
   * The validating variant serves strings as they are, other values through `stringify`,
   * and null for a missing key.
   */
  method ValidatingSession(stringify: Value -> string)
    returns (gets: seq<Result<Option<string>>>, prefixed: seq<Result<seq<string>>>,
             many: Result<seq<Option<string>>>, contains: seq<Result<bool>>, items: Result<seq<string>>)
    ensures gets == [Success(Some("value")), Success(None)]
    ensures prefixed == [Success(["split1", "split2"]), Success(["split2"])]
    ensures many == Success([Some(stringify(Obj(Split1))), Some("{ \"name\": \"split2\" }"), None])
    ensures contains == [Success(true), Success(false)]
    ensures items == Success(["item1", "item2", "item3"])
  {
    var w, o := ValidatingConnected(stringify);
    gets, many := ValidatingValues(w);
    prefixed := ValidatingPrefixes(w);
    items, contains := ValidatingSets(w);
  }

  method ValidatingValues(w: ValidatingStorage.EdgeConfigWrapper)
    returns (gets: seq<Result<Option<string>>>, many: Result<seq<Option<string>>>)
    requires w.data == Some(Definitions)
    ensures gets == [Success(Some("value")), Success(None)]
    ensures many == Success([Some(w.stringify(Obj(Split1))), Some("{ \"name\": \"split2\" }"), None])
  {
    var m := w.GetMany(["split1", "split2", "split3"]);
    assert m.value == [m.value[0], m.value[1], m.value[2]];
    many := m;
    var g0 := w.Get("key");
    var g1 := w.Get("key2");
    gets := [g0, g1];
  }

  method ValidatingPrefixes(w: ValidatingStorage.EdgeConfigWrapper) returns (prefixed: seq<Result<seq<string>>>)
    requires w.data == Some(Definitions)
    ensures prefixed == [Success(["split1", "split2"]), Success(["split2"])]
  {
    var p0 := w.GetKeysByPrefix("split");
    var p1 := w.GetKeysByPrefix("split2");
    prefixed := [p0, p1];
    DefinitionsByPrefix();
  }

  method ValidatingSets(w: ValidatingStorage.EdgeConfigWrapper) returns (items: Result<seq<string>>, contains: seq<Result<bool>>)
    requires w.data == Some(Definitions)
    ensures items == Success(["item1", "item2", "item3"])
    ensures contains == [Success(true), Success(false)]
  {
    items := w.GetItems("set");
    var i0 := w.ItemContains("set", "item2");
    var i1 := w.ItemContains("set", "item4");
    contains := [i0, i1];
  }

  /** "split" lists both definitions in order (not the upper-case marker); "split2" only one. */
  lemma DefinitionsByPrefix()
    ensures Store.KeysByPrefix(Definitions, "split") == ["split1", "split2"]
    ensures Store.KeysByPrefix(Definitions, "split2") == ["split2"]
  {
    var m := "SPLITIO.splits.till";
    assert m[1] == 'P' && "key"[0] == 'k' && "set"[1] == 'e';
    assert "split" <= "split1" && "split" <= "split2";
    assert "split1"[5] != "split2"[5];
    FilterFive(m, "split1", "split2", "key", "set", Store.HasPrefix("split"));
    FilterFive(m, "split1", "split2", "key", "set", Store.HasPrefix("split2"));
  }

  /** The single-element answer of a filter. */
  function Kept(x: string, keep: string -> bool): seq<string> {
    if keep(x) then [x] else []
  }

  /** Filtering a two-element list, one element at a time. */
  lemma FilterTwo(a: string, b: string, keep: string -> bool)
    ensures Store.Filter([a, b], keep) == Kept(a, keep) + Kept(b, keep)
  {
    assert Store.Filter([], keep) == [];
    assert [a] == [] + [a] && [a, b] == [a] + [b];
    Store.FilterAppend([], a, keep);
    Store.FilterAppend([a], b, keep);
  }

  /** Filtering a four-element list, one element at a time. */
  lemma FilterFour(a: string, b: string, c: string, d: string, keep: string -> bool)
    ensures Store.Filter([a, b, c, d], keep) == Kept(a, keep) + Kept(b, keep) + Kept(c, keep) + Kept(d, keep)
  {
    FilterTwo(a, b, keep);
    assert [a, b, c] == [a, b] + [c] && [a, b, c, d] == [a, b, c] + [d];
    Store.FilterAppend([a, b], c, keep);
    Store.FilterAppend([a, b, c], d, keep);
  }

  /** Filtering a five-element list, one element at a time. */
  lemma FilterFive(a: string, b: string, c: string, d: string, e: string, keep: string -> bool)
    ensures Store.Filter([a, b, c, d, e], keep) ==
      Kept(a, keep) + Kept(b, keep) + Kept(c, keep) + Kept(d, keep) + Kept(e, keep)
  {
    FilterFour(a, b, c, d, keep);
    assert [a, b, c, d, e] == [a, b, c, d] + [e];
    Store.FilterAppend([a, b, c, d], e, keep);
  }
}
