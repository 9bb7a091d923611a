/** The StaticHBar chart actor: two guarded actions over a chart handle, chosen
    by a fixed priority, with a declared managed state for migration. */
module StaticHBarActor {
  import opened Common

  /** A token on the `values` or `labels` inport (each is a list of values). */
  datatype Token = Num(n: int) | Text(s: string) | Items(items: seq<Token>)

  /** What `send_request` writes to the chart: `{'labels': ..., 'values': ...}`. */
  datatype ChartRequest = ChartRequest(labels: Token, values: Token)

  /** The `chart_param` settings passed when the chart is opened. */
  type ChartParam = map<string, Token>

  /** The base64 object `calvinlib.use('base64')` returns; its encoding is left uninterpreted. */
  datatype Base64Lib = Base64Lib(encode: string -> string)

  /** The calvinsys capability the chart is opened from. */
  const ChartCapability := "chart.static.hbar"

  /** The handle `calvinsys.open` returns: rendered images waiting to be read,
      whether it accepts a request, and the requests written so far. Rendering
      itself is done elsewhere and shows up here only as `images`. */
  class ChartHandle {
    const capability: string
    const param: ChartParam
    var images: seq<string>
    var writable: bool
    var requests: seq<ChartRequest>

    constructor Open(capability: string, param: ChartParam, images: seq<string>, writable: bool)
      ensures this.capability == capability && this.param == param
      ensures this.images == images && this.writable == writable && requests == []
    {
      this.capability := capability;
      this.param := param;
      this.images := images;
      this.writable := writable;
      requests := [];
    }

    /** `calvinsys.can_read`: a side-effect-free poll. */
    predicate CanRead()
      reads this
    {
      |images| > 0
    }

    /** `calvinsys.can_write`: a side-effect-free poll. */
    predicate CanWrite()
      reads this
    {
      writable
    }

    /** `calvinsys.read`: takes the oldest waiting image. */
    method Read() returns (img: string)
      requires CanRead()
      modifies this
      ensures img == old(images[0]) && images == old(images[1..])
      ensures writable == old(writable) && requests == old(requests)
    {
      img := images[0];
      images := images[1..];
    }

    /** `calvinsys.write`: hands a request to the chart. */
    method Write(request: ChartRequest)
      requires CanWrite()
      modifies this
      ensures requests == old(requests) + [request]
      ensures images == old(images) && writable == old(writable)
    {
      requests := requests + [request];
    }
  }

  /** Python's list repetition `n * [x]`: `n` copies, none when `n` is not positive. */
  function Repeat<T>(x: T, n: int): (r: seq<T>)
    ensures |r| == (if n > 0 then n else 0)
    ensures forall i :: 0 <= i < |r| ==> r[i] == x
    decreases n
  {
    if n <= 0 then [] else [x] + Repeat(x, n - 1)
  }

  datatype Action = HandleResponse | SendRequest

  /** `action_priority`: the order in which actions are tried. */
  const ActionPriority: seq<Action> := [HandleResponse, SendRequest]

  /** The position in `order` of the first action in `enabled`: the selection rule
      implied by a declared priority. */
  function FirstEnabled(order: seq<Action>, enabled: set<Action>): (r: Option<nat>)
    ensures r.Some? ==> r.value < |order| && order[r.value] in enabled
    ensures r.Some? ==> forall j :: 0 <= j < r.value ==> order[j] !in enabled
    ensures r.None? <==> forall j :: 0 <= j < |order| ==> order[j] !in enabled
  {
    if order == [] then None
    else if order[0] in enabled then Some(0)
    else match FirstEnabled(order[1..], enabled)
      case None => None
      case Some(i) => Some(i + 1)
  }

  /** The managed part of the actor's state, the fields `@manage` declares in their
      declared order: what migration carries over. `_base64` is not among them. */
  datatype ManagedState = ManagedState(dimension: int, labels: seq<string>, values: seq<int>, chart: ChartHandle)

  class StaticHBar {
    var dimension: int
    var labels: seq<string>
    var values: seq<int>
    var chart: ChartHandle
    var base64: Option<Base64Lib>
    // port queues: tokens waiting on the two inports, tokens produced on the outport
    var valuesIn: seq<Token>
    var labelsIn: seq<Token>
    var b64image: seq<string>

    /** `setup` has run, so the encoder is available. */
    ghost predicate Ready()
      reads this
    {
      base64.Some?
    }

    /** `init(chart_param={}, dimension=8)`; `chart` is the handle `calvinsys.open`
        returned for the chart capability and `chartParam`, and `encoder` is what
        `calvinlib.use('base64')` returns to `setup`. */
    constructor Init(chart: ChartHandle, encoder: Base64Lib, chartParam: ChartParam := map[], dimension: int := 8)
      requires chart.capability == ChartCapability && chart.param == chartParam
      ensures Ready() && base64 == Some(encoder)
      ensures this.dimension == dimension && this.chart == chart
      ensures |labels| == |values| == (if dimension > 0 then dimension else 0)
      ensures forall i :: 0 <= i < |labels| ==> labels[i] == ""
      ensures forall i :: 0 <= i < |values| ==> values[i] == 0
      ensures valuesIn == [] && labelsIn == [] && b64image == []
    {
      this.dimension := dimension;
      labels := Repeat("", dimension);
      values := Repeat(0, dimension);
      this.chart := chart;
      base64 := None;
      valuesIn, labelsIn, b64image := [], [], [];
      new;
      Setup(encoder);
    }

    /** An actor rebuilt on another node: the managed fields are written back from
        `saved`, then `did_migrate` runs. */
    constructor Restore(saved: ManagedState, encoder: Base64Lib)
      ensures Managed() == saved
      ensures Ready() && base64 == Some(encoder)
      ensures valuesIn == [] && labelsIn == [] && b64image == []
    {
      dimension, labels, values, chart := saved.dimension, saved.labels, saved.values, saved.chart;
      base64 := None;
      valuesIn, labelsIn, b64image := [], [], [];
      new;
      DidMigrate(encoder);
    }

    /** The managed fields, in the declared order. */
    function Managed(): (m: ManagedState)
      reads this
      ensures m.dimension == dimension && m.labels == labels && m.values == values && m.chart == chart
    {
      ManagedState(dimension, labels, values, chart)
    }

    method Setup(encoder: Base64Lib)
      modifies this
      ensures base64 == Some(encoder) && Managed() == old(Managed())
      ensures valuesIn == old(valuesIn) && labelsIn == old(labelsIn) && b64image == old(b64image)
    {
      base64 := Some(encoder);
    }

    /** Re-establishes the unmanaged encoder after migration, touching nothing managed. */
    method DidMigrate(encoder: Base64Lib)
      modifies this
      ensures base64 == Some(encoder) && Managed() == old(Managed())
      ensures valuesIn == old(valuesIn) && labelsIn == old(labelsIn) && b64image == old(b64image)
    {
      Setup(encoder);
    }

    /** `handle_response` may fire: the chart has an image and `b64image` has room. */
    predicate HandleResponseEnabled(b64imageRoom: bool): (r: bool)
      reads this, chart
      ensures r <==> |chart.images| > 0 && b64imageRoom
    {
      chart.CanRead() && b64imageRoom
    }

    /** `send_request` may fire: the chart accepts a request and both inports hold a token. */
    predicate SendRequestEnabled(): (r: bool)
      reads this, chart
      ensures r <==> chart.writable && |valuesIn| >= 1 && |labelsIn| >= 1
    {
      chart.CanWrite() && |valuesIn| >= 1 && |labelsIn| >= 1
    }

    function Enabled(b64imageRoom: bool): set<Action>
      reads this, chart
    {
      (if HandleResponseEnabled(b64imageRoom) then {HandleResponse} else {})
      + (if SendRequestEnabled() then {SendRequest} else {})
    }

    /** The action to fire next, if any: `handle_response` whenever it is enabled,
        otherwise `send_request` when that one is. */
    function Select(b64imageRoom: bool): (a: Option<Action>)
      reads this, chart
      ensures a == Some(HandleResponse) <==> HandleResponseEnabled(b64imageRoom)
      ensures a == Some(SendRequest) <==> SendRequestEnabled() && !HandleResponseEnabled(b64imageRoom)
      ensures a == None <==> !HandleResponseEnabled(b64imageRoom) && !SendRequestEnabled()
    {
      var enabled := Enabled(b64imageRoom);
      match FirstEnabled(ActionPriority, enabled)
      case None =>
        assert ActionPriority[0] == HandleResponse && ActionPriority[1] == SendRequest;
        None
      case Some(i) => Some(ActionPriority[i])
    }

    /** One firing step: select by priority, then run the selected action. */
    method FireOnce(b64imageRoom: bool) returns (fired: Option<Action>)
      requires Ready()
      modifies this, chart
      ensures fired == old(Select(b64imageRoom))
      ensures chart == old(chart) && Managed() == old(Managed()) && base64 == old(base64)
      ensures chart.writable == old(chart.writable)
      ensures fired == None ==>
        && valuesIn == old(valuesIn) && labelsIn == old(labelsIn) && b64image == old(b64image)
        && chart.images == old(chart.images) && chart.requests == old(chart.requests)
      ensures fired == Some(HandleResponse) ==>
        && b64image == old(b64image) + [old(base64).value.encode(old(chart.images)[0])]
        && chart.images == old(chart.images)[1..]
        && valuesIn == old(valuesIn) && labelsIn == old(labelsIn)
        && chart.requests == old(chart.requests)
      ensures fired == Some(SendRequest) ==>
        && valuesIn == old(valuesIn)[1..] && labelsIn == old(labelsIn)[1..]
        && chart.requests == old(chart.requests) + [ChartRequest(old(labelsIn)[0], old(valuesIn)[0])]
        && b64image == old(b64image) && chart.images == old(chart.images)
    {
      fired := Select(b64imageRoom);
      match fired
      case None =>
      case Some(HandleResponse) =>
        var result := HandleResponseBody();
        b64image := b64image + [result];
      case Some(SendRequest) =>
        var v, l := valuesIn[0], labelsIn[0];
        valuesIn, labelsIn := valuesIn[1..], labelsIn[1..];
        SendRequestBody(v, l);
    }

    /** The body of `handle_response`: read an image and encode it. */
    method HandleResponseBody() returns (result: string)
      requires Ready() && chart.CanRead()
      modifies chart
      ensures result == base64.value.encode(old(chart.images)[0])
      ensures chart.images == old(chart.images)[1..]
      ensures chart.writable == old(chart.writable) && chart.requests == old(chart.requests)
    {
      var imgStr := chart.Read();
      result := base64.value.encode(imgStr);
    }

    /** The body of `send_request`: write both tokens to the chart. */
    method SendRequestBody(values: Token, labels: Token)
      requires chart.CanWrite()
      modifies chart
      ensures chart.requests == old(chart.requests) + [ChartRequest(labels, values)]
      ensures chart.images == old(chart.images) && chart.writable == old(chart.writable)
    {
      chart.Write(ChartRequest(labels, values));
    }
  }

  /** With room on `b64image`, an actor whose chart has an image always picks
      `handle_response`, whatever its inports hold. */
  lemma HandleResponseHasPriority(actor: StaticHBar)
    requires actor.chart.CanRead()
    ensures actor.Select(true) == Some(HandleResponse)
  {
  }

  /** The actor's own test: empty inports, a chart whose read yields "dummy", and an
      encoder that maps "dummy" to its base64 text. Whatever `can_write` answers, only
      `handle_response` fires, once, and the outport ends up holding ["ZHVtbXk="]. */
  method DeclaredTest(encoder: Base64Lib, chartWritable: bool) returns (first: Option<Action>, second: Option<Action>, output: seq<string>)
    requires encoder.encode("dummy") == "ZHVtbXk="
    ensures first == Some(HandleResponse) && second == None
    ensures output == ["ZHVtbXk="]
  {
    var chart := new ChartHandle.Open(ChartCapability, map[], ["dummy"], chartWritable);
    var actor := new StaticHBar.Init(chart, encoder);
    first := actor.FireOnce(true);
    second := actor.FireOnce(true);
    output := actor.b64image;
  }
}
