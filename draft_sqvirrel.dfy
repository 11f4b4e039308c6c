/** The earlier draft of the client in src/sqvirrel.js. It wires its slots field
    by field: the constructor overwrites what `applyAdapter` set, `applyAdapter`
    stores the adapter's `_delete` in the PUT slot, `put` calls the POST slot,
    and no verb passes the port. */
module Draft {
  import opened Promises
  import opened JsModel

  const DEFAULT_HTTPS_PORT: int := 443

  datatype Verb = Options | Get | Head | Post | Put | Delete

  /** The verb as it appears in the missing-adapter message. */
  function VerbName(v: Verb): string
  {
    match v
    case Options => "OPTIONS"
    case Get => "GET"
    case Head => "HEAD"
    case Post => "POST"
    case Put => "PUT"
    case Delete => "DELETE"
  }

  /** The rejection a verb gives when its guard slot is falsy. */
  function MissingAdapter(v: Verb): Js
  {
    Error(PlainError, "Missing " + VerbName(v) + " adapter method")
  }

  /** The payload property a verb's bundle names: the query for reads, the body
      for writes, none for OPTIONS. */
  function PayloadKeys(v: Verb): set<string>
  {
    match v
    case Options => {}
    case Get | Head | Delete => {"query"}
    case Post | Put => {"body"}
  }

  /** How a synchronous method call ends. */
  datatype Completion = Completed | Raised(error: Js)

  /** `new Sqvirrel(params)`: either the constructor throws, or it yields an instance. */
  datatype Construction = Threw(error: Js) | Built(instance: Sqvirrel)

  class Sqvirrel {
    var host: Js
    var port: Js
    var headers: Js
    var optionsSlot: Js
    var getSlot: Js
    var headSlot: Js
    var postSlot: Js
    var putSlot: Js
    var deleteSlot: Js

    /** Stores the checked fields; the slots start out undefined. */
    constructor Init(host: Js, port: Js, headers: Js)
      ensures this.host == host && this.port == port && this.headers == headers
      ensures optionsSlot == getSlot == headSlot == postSlot == putSlot == deleteSlot == Undefined
    {
      this.host, this.port, this.headers := host, port, headers;
      optionsSlot, getSlot, headSlot := Undefined, Undefined, Undefined;
      postSlot, putSlot, deleteSlot := Undefined, Undefined, Undefined;
    }

    /** `new Sqvirrel({ host, port = 443, headers, adapter })`. The argument is
        destructured first, then the adapter (so a missing argument or adapter
        throws a TypeError before the host is looked at), then a falsy host
        throws "host URL is mandatory". The slots finally hold the adapter's own
        entries, whatever `applyAdapter` stored before. */
    static method Create(params: Js) returns (r: Construction)
      ensures Nullish(params) ==> r == Threw(ENGINE_TYPE_ERROR)
      ensures !Nullish(params) && Nullish(Prop(params, "adapter")) ==> r == Threw(ENGINE_TYPE_ERROR)
      ensures !Nullish(params) && !Nullish(Prop(params, "adapter")) && !Truthy(Prop(params, "host")) ==>
        r == Threw(Error(PlainError, "host URL is mandatory"))
      ensures r.Built? <==>
        !Nullish(params) && !Nullish(Prop(params, "adapter")) && Truthy(Prop(params, "host"))
      ensures r.Built? ==>
        var adapter := Prop(params, "adapter");
        && fresh(r.instance)
        && r.instance.host == Prop(params, "host")
        && r.instance.port == OrDefault(Prop(params, "port"), Num(DEFAULT_HTTPS_PORT))
        && r.instance.headers == Prop(params, "headers")
        && r.instance.optionsSlot == Prop(adapter, "_options")
        && r.instance.getSlot == Prop(adapter, "_get")
        && r.instance.headSlot == Prop(adapter, "_head")
        && r.instance.postSlot == Prop(adapter, "_post")
        && r.instance.putSlot == Prop(adapter, "_put")
        && r.instance.deleteSlot == Prop(adapter, "_delete")
    {
      if Nullish(params) {
        return Threw(ENGINE_TYPE_ERROR);
      }
      var host := Prop(params, "host");
      var port := OrDefault(Prop(params, "port"), Num(DEFAULT_HTTPS_PORT));
      var headers := Prop(params, "headers");
      var adapter := Prop(params, "adapter");
      if Nullish(adapter) {
        return Threw(ENGINE_TYPE_ERROR);
      }
      var options_, get_, head_ := Prop(adapter, "_options"), Prop(adapter, "_get"), Prop(adapter, "_head");
      var post_, put_, delete_ := Prop(adapter, "_post"), Prop(adapter, "_put"), Prop(adapter, "_delete");
      if !Truthy(host) {
        return Threw(Error(PlainError, "host URL is mandatory"));
      }
      var c := new Sqvirrel.Init(host, port, headers);
      if Truthy(adapter) {
        var done := c.ApplyAdapter(adapter);
      }
      c.optionsSlot, c.getSlot, c.headSlot := options_, get_, head_;
      c.postSlot, c.putSlot, c.deleteSlot := post_, put_, delete_;
      r := Built(c);
    }

    /** `applyAdapter(adapter)`: destructuring a null or undefined adapter throws
        and changes nothing. Otherwise OPTIONS takes the adapter's entry as is,
        GET, HEAD and POST take theirs or null, the PUT slot ends up with the
        adapter's `_delete` or null (its own `_put` is overwritten at once), and
        the DELETE slot is left alone. */
    method ApplyAdapter(adapter: Js) returns (c: Completion)
      modifies this
      ensures host == old(host) && port == old(port) && headers == old(headers)
      ensures deleteSlot == old(deleteSlot)
      ensures Nullish(adapter) ==>
        && c == Raised(ENGINE_TYPE_ERROR)
        && optionsSlot == old(optionsSlot) && getSlot == old(getSlot) && headSlot == old(headSlot)
        && postSlot == old(postSlot) && putSlot == old(putSlot)
      ensures !Nullish(adapter) ==>
        && c == Completed
        && optionsSlot == Prop(adapter, "_options")
        && getSlot == OrNull(Prop(adapter, "_get"))
        && headSlot == OrNull(Prop(adapter, "_head"))
        && postSlot == OrNull(Prop(adapter, "_post"))
        && putSlot == OrNull(Prop(adapter, "_delete"))
    {
      if Nullish(adapter) {
        return Raised(ENGINE_TYPE_ERROR);
      }
      optionsSlot := Prop(adapter, "_options");
      getSlot := OrNull(Prop(adapter, "_get"));
      headSlot := OrNull(Prop(adapter, "_head"));
      postSlot := OrNull(Prop(adapter, "_post"));
      putSlot := OrNull(Prop(adapter, "_put"));
      putSlot := OrNull(Prop(adapter, "_delete"));
      c := Completed;
    }

    /** The slot a verb checks before dispatching. */
    function GuardSlot(v: Verb): Js
      reads this
    {
      match v
      case Options => optionsSlot
      case Get => getSlot
      case Head => headSlot
      case Post => postSlot
      case Put => putSlot
      case Delete => deleteSlot
    }

    /** The slot a verb calls: its own, except that PUT calls the POST slot. */
    function TargetSlot(v: Verb): Js
      reads this
    {
      if v == Put then postSlot else GuardSlot(v)
    }

    /** The object a verb hands its adapter: host, path and merged headers, no
        port and nothing else from the call; GET's query has no default, HEAD's
        and DELETE's default to null; POST's body has no default, PUT's
        defaults to "". */
    function BundleFor(v: Verb, args: Js): (b: Bundle)
      reads this
      ensures b.Keys == {"host", "restPath", "headers"} + PayloadKeys(v)
      ensures "port" !in b
      ensures "host" in b && b["host"] == host
      ensures "restPath" in b && b["restPath"] == Prop(args, "restPath")
      ensures "headers" in b && b["headers"] == Obj(MergeHeaders(headers, Prop(args, "additionalHeaders")))
      ensures v == Get ==> b["query"] == Prop(args, "query")
      ensures v == Head || v == Delete ==> b["query"] == OrDefault(Prop(args, "query"), Null)
      ensures v == Post ==> b["body"] == Prop(args, "body")
      ensures v == Put ==> b["body"] == OrDefault(Prop(args, "body"), Str(""))
    {
      var extra :=
        if v == Head || v == Put || v == Delete then OrDefault(Prop(args, "additionalHeaders"), Obj(map[]))
        else Prop(args, "additionalHeaders");
      var literal := map["host" := host, "restPath" := Prop(args, "restPath"), "headers" := Obj(MergeHeaders(headers, extra))];
      match v
      case Options => literal
      case Get => literal["query" := Prop(args, "query")]
      case Head | Delete => literal["query" := OrDefault(Prop(args, "query"), Null)]
      case Post => literal["body" := Prop(args, "body")]
      case Put => literal["body" := OrDefault(Prop(args, "body"), Str(""))]
    }

    /** The verb operations, each settled to its outcome. The call argument is
        destructured in the signature, so an omitted or null argument rejects
        first; then a falsy guard slot rejects with "Missing <VERB> adapter
        method"; otherwise the outcome is that of calling the target slot (POST's
        for PUT) on the verb's bundle. */
    function Request(v: Verb, args: Js, invoke: Invoke): (r: Outcome<Js, Js>)
      reads this
      ensures Nullish(args) ==> r == Rejected(ENGINE_TYPE_ERROR)
      ensures !Nullish(args) && !Truthy(GuardSlot(v)) ==> r == Rejected(MissingAdapter(v))
      ensures !Nullish(args) && Truthy(GuardSlot(v)) && !TargetSlot(v).Func? ==> r == Rejected(ENGINE_TYPE_ERROR)
      ensures !Nullish(args) && Truthy(GuardSlot(v)) && TargetSlot(v).Func? ==>
        r == invoke(TargetSlot(v).id, BundleFor(v, args))
      ensures v == Put && !Nullish(args) && Truthy(putSlot) ==>
        r == (if postSlot.Func? then invoke(postSlot.id, BundleFor(Put, args)) else Rejected(ENGINE_TYPE_ERROR))
    {
      if Nullish(args) then Rejected(ENGINE_TYPE_ERROR)
      else if !Truthy(GuardSlot(v)) then Rejected(MissingAdapter(v))
      else
        var target := TargetSlot(v);
        if target.Func? then invoke(target.id, BundleFor(v, args))
        // calling a non-function throws inside the async body
        else Rejected(ENGINE_TYPE_ERROR)
    }
  }
}
