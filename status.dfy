/** The status the Odyssey server reports (`load_status`) and the
    accessors that Klipper's status queries read from it. The accessors
    work on the dict exactly as `load_status` returns it: they look up
    `layer`, `paused`, `print_data` and `status` at its top level. */
module Status {
  import opened PyValues
  import opened Decimal

  /** What a `GET /status` produced: no response at all (the request
      raised), or a response with its status code and, when the body is
      valid JSON, the parsed body. */
  datatype Fetched = NoConnection | Received(code: nat, body: Option<Json>)

  /** `{'Communication Error': {}}` */
  const CommunicationError: Json := JObject(map["Communication Error" := EmptyObject])

  function ErrorKey(code: nat): (key: string)
    ensures |key| > 6 && key[0] == 'E'
  {
    "Error " + NatToString(code)
  }

  /** `{"Error <code>": {}}` */
  function ErrorSentinel(code: nat): Json {
    JObject(map[ErrorKey(code) := EmptyObject])
  }

  /** `load_status`: never raises. A parsed body is returned as it is,
      whatever the status code; an unparsable body becomes the error
      sentinel for its code; a failed request becomes the communication
      error sentinel. Neither sentinel names a phase the tracker acts on. */
  function LoadStatus(fetched: Fetched): (status: Json)
    ensures fetched.Received? && fetched.body.Some? ==> status == fetched.body.value
    ensures fetched.NoConnection? ==> status == CommunicationError
    ensures fetched.Received? && fetched.body.None? ==> status == ErrorSentinel(fetched.code)
    ensures fetched.Received? && fetched.body.None? ==>
      status.JObject? && status.fields.Keys == {ErrorKey(fetched.code)}
    ensures !(fetched.Received? && fetched.body.Some?) ==>
      Contains(status, "Idle") == Ok(false) && Contains(status, "Printing") == Ok(false)
  {
    match fetched
    case NoConnection => CommunicationError
    case Received(code, body) =>
      match body
      case Some(json) => json
      case None => ErrorSentinel(code)
  }

  /** Distinct status codes give distinct error sentinels. */
  lemma ErrorSentinelInjective(a: nat, b: nat)
    ensures ErrorSentinel(a) == ErrorSentinel(b) ==> a == b
  {
    if ErrorSentinel(a) == ErrorSentinel(b) {
      assert ErrorKey(a) in ErrorSentinel(b).fields;
      assert ErrorKey(a) == ErrorKey(b);
      assert NatToString(a) == ErrorKey(a)[6..];
      NatToStringInjective(a, b);
    }
  }

  /** `self.status.get('print_data') or {}` */
  function PrintData(status: Json): (r: Result<Json>)
    ensures r.Ok? <==> status.JObject?
    ensures r.Ok? && "print_data" in status.fields && Truthy(status.fields["print_data"]) ==>
      r.value == status.fields["print_data"]
    ensures r.Ok? && !("print_data" in status.fields && Truthy(status.fields["print_data"])) ==>
      r.value == EmptyObject
    ensures r.Raise? ==> r.error == AttributeError
  {
    var data :- Get(status, "print_data", JNull);
    Ok(Or(data, EmptyObject))
  }

  /** `self.print_data().get('layer_count', 1)`: 1 when there is no
      print_data, when it is falsy, or when it lacks the key; a truthy
      print_data that is not a dict has no `get`. */
  function LayerCount(status: Json): (r: Result<Json>)
    ensures status.JObject? && !("print_data" in status.fields && Truthy(status.fields["print_data"])) ==>
      r == Ok(JInt(1))
    ensures status.JObject? && "print_data" in status.fields && Truthy(status.fields["print_data"]) ==>
      var data := status.fields["print_data"];
      r == if !data.JObject? then Raise(AttributeError)
           else if "layer_count" in data.fields then Ok(data.fields["layer_count"])
           else Ok(JInt(1))
    ensures !status.JObject? ==> r == Raise(AttributeError)
  {
    var data :- PrintData(status);
    Get(data, "layer_count", JInt(1))
  }

  /** `self.status.get('layer')` */
  function Layer(status: Json): (r: Result<Json>)
    ensures r.Ok? <==> status.JObject?
    ensures r.Ok? ==> r.value == if "layer" in status.fields then status.fields["layer"] else JNull
    ensures r.Raise? ==> r.error == AttributeError
  {
    Get(status, "layer", JNull)
  }

  /** `file_position` reports the layer index. */
  function FilePosition(status: Json): (r: Result<Json>)
    ensures r == Layer(status)
  {
    Layer(status)
  }

  /** `self.status.get('paused', False)` */
  function IsPaused(status: Json): (r: Result<Json>)
    ensures r.Ok? <==> status.JObject?
    ensures r.Ok? ==> r.value == if "paused" in status.fields then status.fields["paused"] else JBool(false)
    ensures r.Raise? ==> r.error == AttributeError
  {
    Get(status, "paused", JBool(false))
  }

  /** `print_status` evaluates `self.status.get('status', 'Shutdown')` but
      has no `return`, so it yields None (or raises when the status is not
      a dict). */
  function PrintStatus(status: Json): (r: Result<Json>)
    ensures r.Ok? <==> status.JObject?
    ensures r.Ok? ==> r.value == JNull
    ensures r.Raise? ==> r.error == AttributeError
  {
    var _ :- Get(status, "status", JStr("Shutdown"));
    Ok(JNull)
  }

  /** `self.print_status() == "Printing" and not self.is_paused()`: since
      `print_status` yields None, this is never true. */
  function IsActive(status: Json): (r: Result<bool>)
    ensures r.Ok? <==> status.JObject?
    ensures r != Ok(true)
    ensures r.Raise? ==> r.error == AttributeError
  {
    var phase :- PrintStatus(status);
    if phase != JStr("Printing") then Ok(false)
    else
      match IsPaused(status)
      case Ok(paused) => Ok(!Truthy(paused))
      case Raise(e) => Raise(e)
  }

  /** `self.print_data().get('file_data', {})`: `{}` when there is no
      truthy print_data or it lacks the key; a truthy print_data that is
      not a dict has no `get`. */
  function FileData(status: Json): (r: Result<Json>)
    ensures !status.JObject? ==> r == Raise(AttributeError)
    ensures status.JObject? && !("print_data" in status.fields && Truthy(status.fields["print_data"])) ==>
      r == Ok(EmptyObject)
    ensures status.JObject? && "print_data" in status.fields && Truthy(status.fields["print_data"]) ==>
      var data := status.fields["print_data"];
      r == if !data.JObject? then Raise(AttributeError)
           else if "file_data" in data.fields then Ok(data.fields["file_data"])
           else Ok(EmptyObject)
  {
    var data :- PrintData(status);
    Get(data, "file_data", EmptyObject)
  }

  /** `.get(key)` on the file data: None when the key is missing, and
      AttributeError when the file data (or anything before it) is not a
      dict. */
  function FileDataField(status: Json, key: string): (r: Result<Json>)
    ensures r.Ok? <==> FileData(status).Ok? && FileData(status).value.JObject?
    ensures r.Raise? ==> r.error == AttributeError
    ensures r.Ok? ==> var fields := FileData(status).value.fields;
      r.value == if key in fields then fields[key] else JNull
    ensures status.JObject? && !("print_data" in status.fields && Truthy(status.fields["print_data"])) ==>
      r == Ok(JNull)
  {
    var fileData :- FileData(status);
    Get(fileData, key, JNull)
  }

  /** `location_category`: the storage location of the job's file. */
  function LocationCategory(status: Json): (r: Result<Json>)
    ensures r.Ok? <==> FileData(status).Ok? && FileData(status).value.JObject?
    ensures r.Raise? ==> r.error == AttributeError
    ensures r.Ok? ==> var fields := FileData(status).value.fields;
      r.value == if "location_category" in fields then fields["location_category"] else JNull
  {
    FileDataField(status, "location_category")
  }

  /** `file_name`: the job's file name. */
  function FileName(status: Json): (r: Result<Json>)
    ensures r.Ok? <==> FileData(status).Ok? && FileData(status).value.JObject?
    ensures r.Raise? ==> r.error == AttributeError
    ensures r.Ok? ==> var fields := FileData(status).value.fields;
      r.value == if "name" in fields then fields["name"] else JNull
  {
    FileDataField(status, "name")
  }

  /** `file_path`: the server's own `path` entry of the file data. */
  function FilePath(status: Json): (r: Result<Json>)
    ensures r.Ok? <==> FileData(status).Ok? && FileData(status).value.JObject?
    ensures r.Raise? ==> r.error == AttributeError
    ensures r.Ok? ==> var fields := FileData(status).value.fields;
      r.value == if "path" in fields then fields["path"] else JNull
  {
    FileDataField(status, "path")
  }

  /** The quotient `progress` computes, kept as numerator and denominator. */
  datatype Ratio = Ratio(num: int, den: int)

  /** `(self.layer() or 0) / self.layer_count()`: the divisor is never 0
      in a result; a server that reports a layer_count of 0 makes the
      division raise ZeroDivisionError. */
  function Progress(status: Json): (r: Result<Ratio>)
    ensures r.Ok? ==> r.value.den != 0
    ensures !status.JObject? ==> r == Raise(AttributeError)
    ensures status.JObject? && LayerCount(status).Raise? ==> r == Raise(AttributeError)
    ensures status.JObject? && LayerCount(status).Ok? ==>
      var layer := Numeric(Or(Layer(status).value, JInt(0)));
      var count := Numeric(LayerCount(status).value);
      r == if layer.None? || count.None? then Raise(TypeError)
           else if count.value == 0 then Raise(ZeroDivisionError)
           else Ok(Ratio(layer.value, count.value))
    ensures status.JObject? && "layer" !in status.fields && "print_data" !in status.fields ==>
      r == Ok(Ratio(0, 1))
  {
    var layer :- Layer(status);
    var count :- LayerCount(status);
    match (Numeric(Or(layer, JInt(0))), Numeric(count))
    case (Some(n), Some(d)) => if d == 0 then Raise(ZeroDivisionError) else Ok(Ratio(n, d))
    case _ => Raise(TypeError)
  }

  /** The dict `get_status` returns to Klipper's status queries. */
  datatype StatusReport = StatusReport(
    odysseyStatus: Json, filePath: Json, isActive: bool, filePosition: Json, progress: Ratio)

  /** The report `get_status` builds from a freshly loaded status,
      evaluating its entries in order; the first accessor that raises
      makes the whole query raise. */
  function Report(status: Json): (r: Result<StatusReport>)
    ensures !status.JObject? ==> r == Raise(AttributeError)
    ensures r.Ok? ==> r.value.odysseyStatus == JNull && !r.value.isActive && r.value.progress.den != 0
    ensures r.Ok? ==> Ok(r.value.filePosition) == Layer(status) && Ok(r.value.filePath) == FilePath(status)
    ensures r.Ok? ==> Ok(r.value.progress) == Progress(status)
    // On a dict, only `file_path` and `progress` can raise, in that order.
    ensures status.JObject? && FilePath(status).Raise? ==> r == Raise(FilePath(status).error)
    ensures status.JObject? && FilePath(status).Ok? && Progress(status).Raise? ==> r == Raise(Progress(status).error)
    ensures status.JObject? ==> (r.Ok? <==> FilePath(status).Ok? && Progress(status).Ok?)
  {
    var odysseyStatus :- PrintStatus(status);
    var filePath :- FilePath(status);
    match (IsActive(status), FilePosition(status))
    case (Raise(e), _) => Raise(e)
    case (_, Raise(e)) => Raise(e)
    case (Ok(isActive), Ok(filePosition)) =>
      var progress :- Progress(status);
      Ok(StatusReport(odysseyStatus, filePath, isActive, filePosition, progress))
  }

  /** A report whose job sits under the "Printing" key, as the server
      nests it, whatever that job holds: the accessors look at the top
      level only, so the query reports no file, layer None, progress 0/1
      and an inactive job. */
  lemma NestedReportIsNotRead(job: Json)
    ensures var status := JObject(map["Printing" := job]);
      && Report(status) == Ok(StatusReport(JNull, JNull, false, JNull, Ratio(0, 1)))
      && LocationCategory(status) == Ok(JNull)
      && FileName(status) == Ok(JNull)
      && IsPaused(status) == Ok(JBool(false))
      && LayerCount(status) == Ok(JInt(1))
  {
  }
}
