/** The `Sqvirrel` client of lib/sqvirrel.js: host, port and headers, six adapter
    slots named by ADAPTER_METHODS, the verb operations that guard on a slot and
    dispatch to it, and `batchRequest`. */
module Client {
  import opened Promises
  import opened JsModel
  import opened Helpers

  const DEFAULT_HTTPS_PORT: int := 443

  /** The six adapter slots, one per HTTP verb. */
  datatype AdapterMethod = Options | Head | Get | Post | Put | Delete

  /** The property name of a slot on the instance and on an adapter object. */
  function SlotName(m: AdapterMethod): string
  {
    match m
    case Options => "_options"
    case Head => "_head"
    case Get => "_get"
    case Post => "_post"
    case Put => "_put"
    case Delete => "_delete"
  }

  /** The frozen list the constructor's helpers iterate over. */
  const ADAPTER_METHODS: seq<AdapterMethod> := [Options, Head, Get, Post, Put, Delete]

  /** ADAPTER_METHODS lists every slot once, and slot names are distinct. */
  lemma AdapterMethodsEnumerate()
    ensures |ADAPTER_METHODS| == 6
    ensures forall m: AdapterMethod :: m in ADAPTER_METHODS
    ensures forall i, j :: 0 <= i < j < |ADAPTER_METHODS| ==> ADAPTER_METHODS[i] != ADAPTER_METHODS[j]
    ensures forall m, n: AdapterMethod :: m != n ==> SlotName(m) != SlotName(n)
  {
    forall m: AdapterMethod
      ensures m in ADAPTER_METHODS
    {
      match m
      case Options => assert ADAPTER_METHODS[0] == m;
      case Head => assert ADAPTER_METHODS[1] == m;
      case Get => assert ADAPTER_METHODS[2] == m;
      case Post => assert ADAPTER_METHODS[3] == m;
      case Put => assert ADAPTER_METHODS[4] == m;
      case Delete => assert ADAPTER_METHODS[5] == m;
    }
  }

  /** The rejection a verb gives when its slot is falsy. */
  function MissingAdapter(m: AdapterMethod): Js
  {
    Error(PlainError, "Missing " + SlotName(m) + " adapter method")
  }

  /** Slots of an instance no adapter was ever applied to: never assigned, so undefined. */
  function UnsetSlots(): (s: map<AdapterMethod, Js>)
    ensures forall m: AdapterMethod :: m in s && s[m] == Undefined
  {
    AdapterMethodsEnumerate();
    map m | m in ADAPTER_METHODS :: Undefined
  }

  /** What `applyAdapter` stores for one slot: the adapter's entry when it is a
      function, otherwise null. */
  function Installed(adapter: Js, m: AdapterMethod): Js
  {
    var entry := Prop(adapter, SlotName(m));
    if Truthy(entry) && entry.Func? then entry else Null
  }

  /** The slots after `applyAdapter(adapter)`: a non-object (or falsy) adapter
      changes nothing; an object adapter decides every slot, so a slot it does
      not supply as a function is cleared to null. */
  function AppliedSlots(prev: map<AdapterMethod, Js>, adapter: Js): (s: map<AdapterMethod, Js>)
    requires forall m: AdapterMethod :: m in prev
    ensures forall m: AdapterMethod :: m in s
    ensures !(Truthy(adapter) && TypeofObject(adapter)) ==> s == prev
    ensures Truthy(adapter) && TypeofObject(adapter) ==>
      forall m: AdapterMethod ::
        (s[m].Func? && s[m] == Prop(adapter, SlotName(m))) || (s[m] == Null && !Prop(adapter, SlotName(m)).Func?)
  {
    if Truthy(adapter) && TypeofObject(adapter) then
      AdapterMethodsEnumerate();
      map m | m in ADAPTER_METHODS :: Installed(adapter, m)
    else prev
  }

  /** The slots after `removeAdapter()`: each slot holds its own name. */
  function RemovedSlots(): (s: map<AdapterMethod, Js>)
    ensures forall m: AdapterMethod :: m in s && s[m] == Str(SlotName(m))
  {
    AdapterMethodsEnumerate();
    map m | m in ADAPTER_METHODS :: Str(SlotName(m))
  }

  /** The property names a verb destructures beside its rest element: the
      path, the extra headers, and the query (reads) or the body (writes). */
  function Destructured(m: AdapterMethod): set<string>
  {
    match m
    case Options => {"restPath", "additionalHeaders"}
    case Head | Get | Delete => {"restPath", "additionalHeaders", "query"}
    case Post | Put => {"restPath", "additionalHeaders", "body"}
  }

  /** The payload property a verb other than OPTIONS names in its bundle. */
  function PayloadKey(m: AdapterMethod): string
    requires m != Options
  {
    if m == Post || m == Put then "body" else "query"
  }

  /** `batchRequest`'s filter `entry => !entry.error`; a response record has no
      `error` property, so reading it gives undefined. */
  predicate IsSuccess(entry: Record<Js, Js>, index: nat)
  {
    !(entry.ErrorRecord? && Truthy(entry.error))
  }

  /** The argument `batchRequest` receives: null or undefined (it has no
      default), or an array of pending calls and plain values. */
  datatype CallsArg = NullishCalls | CallArray(calls: seq<Awaitable<Js, Js>>)

  /** The object `batchRequest` resolves to. */
  datatype BatchResult = BatchResult(responses: seq<Record<Js, Js>>, errors: seq<Record<Js, Js>>)

  /** `new Sqvirrel(params)`: either the constructor throws, or it yields an instance. */
  datatype Construction = Threw(error: Js) | Built(instance: Sqvirrel)

  class Sqvirrel {
    var host: Js
    var port: Js
    var headers: Js
    var slots: map<AdapterMethod, Js>

    /** Every slot is present as a property (possibly undefined). */
    ghost predicate Valid()
      reads this
    {
      forall m: AdapterMethod :: m in slots
    }

    /** Stores the checked fields; the slots start out undefined. */
    constructor Init(host: Js, port: Js, headers: Js)
      ensures Valid()
      ensures this.host == host && this.port == port && this.headers == headers
      ensures slots == UnsetSlots()
    {
      this.host := host;
      this.port := port;
      this.headers := headers;
      AdapterMethodsEnumerate();
      slots := UnsetSlots();
    }

    /** `new Sqvirrel(params = {})`: destructures host, port (default 443),
        headers (default {}) and adapter (default null); a falsy host throws
        "Host URL is mandatory"; a truthy adapter is then applied. */
    static method Create(params: Js) returns (r: Construction)
      ensures r.Threw? <==> params.Null? || !Truthy(Prop(params, "host"))
      ensures params.Null? ==> r == Threw(ENGINE_TYPE_ERROR)
      ensures !params.Null? && !Truthy(Prop(params, "host")) ==>
        r == Threw(Error(PlainError, "Host URL is mandatory"))
      ensures r.Built? ==>
        && fresh(r.instance)
        && r.instance.Valid()
        && r.instance.host == Prop(params, "host")
        && r.instance.port == OrDefault(Prop(params, "port"), Num(DEFAULT_HTTPS_PORT))
        && r.instance.headers == OrDefault(Prop(params, "headers"), Obj(map[]))
        && r.instance.slots ==
             (if Truthy(Prop(params, "adapter")) then AppliedSlots(UnsetSlots(), Prop(params, "adapter"))
              else UnsetSlots())
      ensures r.Built? && !Truthy(Prop(params, "adapter")) ==>
        forall m, args, invoke :: r.instance.Request(m, args, invoke) == Rejected(MissingAdapter(m))
    {
      if params.Null? {
        // destructuring null throws before any field is read
        return Threw(ENGINE_TYPE_ERROR);
      }
      var p := OrDefault(params, Obj(map[]));
      var host := Prop(p, "host");
      var port := OrDefault(Prop(p, "port"), Num(DEFAULT_HTTPS_PORT));
      var headers := OrDefault(Prop(p, "headers"), Obj(map[]));
      var adapter := OrDefault(Prop(p, "adapter"), Null);
      if !Truthy(host) {
        return Threw(Error(PlainError, "Host URL is mandatory"));
      }
      var c := new Sqvirrel.Init(host, port, headers);
      if Truthy(adapter) {
        c.ApplyAdapter(adapter);
      }
      r := Built(c);
    }

    /** `applyAdapter(adapter)`: for an object adapter, walks ADAPTER_METHODS and
        sets each slot to the adapter's function or to null. */
    method ApplyAdapter(adapter: Js)
      requires Valid()
      modifies this
      ensures Valid()
      ensures host == old(host) && port == old(port) && headers == old(headers)
      ensures slots == AppliedSlots(old(slots), adapter)
      ensures Truthy(adapter) && TypeofObject(adapter) ==>
        forall m, args, invoke :: !Prop(adapter, SlotName(m)).Func? ==>
          Request(m, args, invoke) == Rejected(MissingAdapter(m))
    {
      if Truthy(adapter) && TypeofObject(adapter) {
        for i := 0 to |ADAPTER_METHODS|
          invariant Valid()
          invariant host == old(host) && port == old(port) && headers == old(headers)
          invariant forall m :: m in ADAPTER_METHODS[..i] ==> slots[m] == Installed(adapter, m)
          invariant forall m :: m !in ADAPTER_METHODS[..i] ==> slots[m] == old(slots)[m]
        {
          var m := ADAPTER_METHODS[i];
          assert ADAPTER_METHODS[..i + 1] == ADAPTER_METHODS[..i] + [m];
          slots := slots[m := Installed(adapter, m)];
        }
        assert ADAPTER_METHODS[..|ADAPTER_METHODS|] == ADAPTER_METHODS;
        AdapterMethodsEnumerate();
        ghost var applied := AppliedSlots(old(slots), adapter);
        forall m: AdapterMethod
          ensures slots[m] == applied[m]
        {
          assert m in ADAPTER_METHODS;
        }
        assert slots == applied;
        forall m, args, invoke | !Prop(adapter, SlotName(m)).Func?
          ensures Request(m, args, invoke) == Rejected(MissingAdapter(m))
        {
          assert slots[m] == Null;
        }
      }
    }

    /** `removeAdapter()`: sets every slot to its own name. The name is a truthy
        string, so each verb passes its guard and then fails calling it. */
    method RemoveAdapter()
      requires Valid()
      modifies this
      ensures Valid()
      ensures host == old(host) && port == old(port) && headers == old(headers)
      ensures slots == RemovedSlots()
      ensures forall m, args, invoke :: Request(m, args, invoke) == Rejected(ENGINE_TYPE_ERROR)
    {
      for i := 0 to |ADAPTER_METHODS|
        invariant Valid()
        invariant host == old(host) && port == old(port) && headers == old(headers)
        invariant forall m :: m in ADAPTER_METHODS[..i] ==> slots[m] == Str(SlotName(m))
      {
        var m := ADAPTER_METHODS[i];
        assert ADAPTER_METHODS[..i + 1] == ADAPTER_METHODS[..i] + [m];
        slots := slots[m := Str(SlotName(m))];
      }
      assert ADAPTER_METHODS[..|ADAPTER_METHODS|] == ADAPTER_METHODS;
    }

    /** The object verb `m` hands its adapter for call parameters `args`
        (`params = {}` when omitted). OPTIONS nests its rest properties under
        `others`; the other verbs spread them last, so a `host`, `port` or
        `headers` property of the call replaces the instance's, and any other
        property the verb does not destructure is passed along as is. */
    function BundleFor(m: AdapterMethod, args: Js): (b: Bundle)
      reads this
      ensures "restPath" in b && b["restPath"] == Prop(args, "restPath")
      ensures m == Options ==>
        && b.Keys == {"host", "port", "restPath", "headers", "others"}
        && b["host"] == host && b["port"] == port
        && b["headers"] == Obj(MergeHeaders(headers, Prop(args, "additionalHeaders")))
        && b["others"] == Obj(RestOf(args, {"restPath", "additionalHeaders"}))
      ensures m != Options ==>
        && b.Keys == {"host", "port", "restPath", "headers", PayloadKey(m)} + (OwnEntries(args).Keys - Destructured(m))
        && b["host"] == (if "host" in OwnEntries(args) then OwnEntries(args)["host"] else host)
        && b["port"] == (if "port" in OwnEntries(args) then OwnEntries(args)["port"] else port)
        && b["headers"] ==
             (if "headers" in OwnEntries(args) then OwnEntries(args)["headers"]
              else Obj(MergeHeaders(headers, Prop(args, "additionalHeaders"))))
        && b[PayloadKey(m)] == OrDefault(Prop(args, PayloadKey(m)), Null)
        && forall k :: k in OwnEntries(args) && k !in Destructured(m) ==> b[k] == OwnEntries(args)[k]
    {
      var p := OrDefault(args, Obj(map[]));
      if m == Options then
        map["host" := host, "port" := port, "restPath" := Prop(p, "restPath"),
            "headers" := Obj(MergeHeaders(headers, Prop(p, "additionalHeaders"))),
            "others" := Obj(RestOf(p, Destructured(m)))]
      else
        var key := PayloadKey(m);
        var literal := map["host" := host, "port" := port, "restPath" := Prop(p, "restPath"),
          "headers" := Obj(MergeHeaders(headers, OrDefault(Prop(p, "additionalHeaders"), Obj(map[])))),
          key := OrDefault(Prop(p, key), Null)];
        literal + RestOf(p, Destructured(m))
    }

    /** The verb operations `options`, `head`, `get`, `post`, `put` and `delete`,
        each settled to its outcome. A falsy slot rejects with the verb's
        missing-adapter error and calls nothing; null params or a truthy
        non-function slot throw inside the async body; otherwise the outcome is
        that of calling the slot on the verb's bundle. */
    function Request(m: AdapterMethod, args: Js, invoke: Invoke): (r: Outcome<Js, Js>)
      reads this
      requires Valid()
      ensures !Truthy(slots[m]) ==> r == Rejected(MissingAdapter(m))
      ensures Truthy(slots[m]) && (args.Null? || !slots[m].Func?) ==> r == Rejected(ENGINE_TYPE_ERROR)
      ensures slots[m].Func? && !args.Null? ==> r == invoke(slots[m].id, BundleFor(m, args))
    {
      var slot := slots[m];
      if !Truthy(slot) then Rejected(MissingAdapter(m))
      // the guard passed; destructuring null params throws inside the async body
      else if args.Null? then Rejected(ENGINE_TYPE_ERROR)
      else if slot.Func? then invoke(slot.id, BundleFor(m, args))
      // calling a truthy non-function throws inside the async body
      else Rejected(ENGINE_TYPE_ERROR)
    }

    /** `batchRequest(calls)`: settles every call, then splits the records with
        `!entry.error` into responses and errors. It resolves for any array of
        calls; a missing or null argument makes `Array.from` inside `settle`
        throw, and the async method rejects with that TypeError. */
    method BatchRequest(arg: CallsArg) returns (r: Outcome<BatchResult, Js>)
      ensures arg.NullishCalls? ==> r == Rejected(ENGINE_TYPE_ERROR)
      ensures arg.CallArray? ==>
        && r.Fulfilled?
        && r.value.responses == Select(Settle(arg.calls).value, IsSuccess, true)
        && r.value.errors == Select(Settle(arg.calls).value, IsSuccess, false)
    {
      if arg.NullishCalls? {
        return Rejected(ENGINE_TYPE_ERROR);
      }
      var calls := arg.calls;
      var settled := Settle(calls);
      var responses, errors := Bifurcate(settled.value, IsSuccess);
      r := Fulfilled(BatchResult(responses, errors));
    }
  }

  /** A `get` whose params carry `host` and `headers` hands the adapter those
      values instead of the instance's, while the port stays the instance's
      and the query defaults to null. */
  lemma SpreadOverridesInstance(c: Sqvirrel)
    ensures
      var args := Obj(map["restPath" := Str("/p"), "host" := Str("b"), "headers" := Obj(map["X" := Str("1")])]);
      && c.BundleFor(Get, args)["host"] == Str("b")
      && c.BundleFor(Get, args)["headers"] == Obj(map["X" := Str("1")])
      && c.BundleFor(Get, args)["port"] == c.port
      && c.BundleFor(Get, args)["query"] == Null
  {
  }

  /** `options` with the same params keeps the instance's host and nests the
      extra properties under `others`. */
  lemma OptionsNestsRest(c: Sqvirrel)
    ensures
      var args := Obj(map["restPath" := Str("/p"), "host" := Str("b"), "headers" := Obj(map["X" := Str("1")])]);
      && c.BundleFor(Options, args)["host"] == c.host
      && c.BundleFor(Options, args)["others"] == Obj(map["host" := Str("b"), "headers" := Obj(map["X" := Str("1")])])
  {
  }

  /** Every record in the errors bucket is an error record with a truthy
      reason, and every record in the responses bucket is a response or an
      error record with a falsy reason. */
  lemma BucketsMatchFilter(s: seq<Record<Js, Js>>)
    ensures forall x :: x in Select(s, IsSuccess, false) ==> x.ErrorRecord? && Truthy(x.error)
    ensures forall x :: x in Select(s, IsSuccess, true) ==> x.ResponseRecord? || !Truthy(x.error)
  {
  }

  /** Call i lands among the responses exactly when it fulfils or rejects with a
      falsy reason; the two buckets account for every call once, each in call
      order; every error record carries a truthy reason and every response
      record is a fulfilment or a falsy rejection. */
  lemma {:induction false} BatchClassifies(calls: seq<Awaitable<Js, Js>>)
    ensures |Select(Settle(calls).value, IsSuccess, true)| + |Select(Settle(calls).value, IsSuccess, false)| == |calls|
    ensures forall i :: 0 <= i < |calls| ==>
      (i in Positions(Settle(calls).value, IsSuccess, true) <==>
        Resolve(calls[i]).Fulfilled? || !Truthy(Resolve(calls[i]).reason))
    ensures forall i :: 0 <= i < |calls| ==>
      (i in Positions(Settle(calls).value, IsSuccess, false) <==>
        Resolve(calls[i]).Rejected? && Truthy(Resolve(calls[i]).reason))
    ensures forall x :: x in Select(Settle(calls).value, IsSuccess, false) ==> x.ErrorRecord? && Truthy(x.error)
    ensures forall x :: x in Select(Settle(calls).value, IsSuccess, true) ==> x.ResponseRecord? || !Truthy(x.error)
  {
    var s := Settle(calls).value;
    SelectPartitions(s, IsSuccess);
    PositionsExact(s, IsSuccess, true);
    PositionsExact(s, IsSuccess, false);
    forall i | 0 <= i < |calls|
      ensures IsSuccess(s[i], i) <==> Resolve(calls[i]).Fulfilled? || !Truthy(Resolve(calls[i]).reason)
    {
      match Resolve(calls[i])
      case Fulfilled(v) =>
      case Rejected(e) =>
    }
    BucketsMatchFilter(s);
  }

  /** A call rejected with a falsy reason (here `undefined`) ends up among the
      responses, because its record's `error` is falsy. */
  lemma FalsyRejectionIsResponse()
    ensures Select(Settle<Js, Js>([Promise(Rejected(Undefined))]).value, IsSuccess, true) == [ErrorRecord(Undefined)]
    ensures Select(Settle<Js, Js>([Promise(Rejected(Undefined))]).value, IsSuccess, false) == []
  {
  }

  /** Three calls where the second rejects with Error("boom") and the others
      fulfil with "OK": the two responses keep their order, the one error is alone. */
  lemma BatchMixedScenario()
    ensures
      var calls: seq<Awaitable<Js, Js>> := [Promise(Fulfilled(Str("OK"))), Promise(Rejected(Error(PlainError, "boom"))), Promise(Fulfilled(Str("OK")))];
      && Select(Settle(calls).value, IsSuccess, true) == [ResponseRecord(Str("OK")), ResponseRecord(Str("OK"))]
      && Select(Settle(calls).value, IsSuccess, false) == [ErrorRecord(Error(PlainError, "boom"))]
  {
    var calls: seq<Awaitable<Js, Js>> := [Promise(Fulfilled(Str("OK"))), Promise(Rejected(Error(PlainError, "boom"))), Promise(Fulfilled(Str("OK")))];
    var s := Settle(calls).value;
    assert s == [ResponseRecord(Str("OK")), ErrorRecord(Error(PlainError, "boom")), ResponseRecord(Str("OK"))];
    assert s[..3] == s && s[..3][..2] == s[..2] && s[..2][..1] == s[..1] && s[..1][..0] == [];
    assert Select(s[..1], IsSuccess, true) == [s[0]] && Select(s[..1], IsSuccess, false) == [];
    assert Select(s[..2], IsSuccess, true) == [s[0]] && Select(s[..2], IsSuccess, false) == [s[1]];
  }
}
