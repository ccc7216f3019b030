/** The distance-matrix client: it stores the origin and destination lists, builds the
    request URL, classifies the provider's decoded reply and sums the distances and
    durations of every element into a Route. */
module DistanceMatrix {
  import opened Common

  const GoogleUrl := "https://maps.googleapis.com/maps/api/distancematrix/"
  const MissingKeyMessage := "You must specify an API key"
  const InvalidRequestMessage := "Request was not valid"
  const OverQueryLimit := "OVER_QUERY_LIMIT"
  const RequestDenied := "REQUEST_DENIED"
  const InvalidRequest := "INVALID_REQUEST"
  const DestinationLabel := "Destination"
  const OriginLabel := "Origin"

  /** The aggregate distance (metres) and travel time (seconds) of a request. */
  datatype Route = Route(totalDistanceMetres: int, totalTimeSeconds: int)

  /** One origin/destination cell of the reply: its `distance.value` and `duration.value`. */
  datatype Element = Element(distanceValue: int, durationValue: int)

  /** One row of the reply, holding the elements of one origin. */
  datatype Row = Row(elements: seq<Element>)

  /** The decoded reply of the provider. A missing `error_message` reads as "". */
  datatype Response = Response(
    status: string,
    errorMessage: string,
    destinationAddresses: seq<string>,
    originAddresses: seq<string>,
    rows: seq<Row>)

  /** What `validateResponse` does with a reply: raise with the provider's message,
      reject it (PHP `false`), or hand it back unchanged. */
  datatype Checked = Raised(message: string) | Rejected | Accepted(response: Response)

  /** What a call returns to its caller: PHP `null`, PHP `false`, a Route, or a raised exception. */
  datatype Outcome = NoResult | Failed | Found(route: Route) | Thrown(message: string)

  /** `implode(separator, items)`. */
  function Join(items: seq<string>, separator: char): string
  {
    if |items| == 0 then ""
    else if |items| == 1 then items[0]
    else items[0] + [separator] + Join(items[1..], separator)
  }

  /** The inverse of Join, as the provider reads a `|`-separated field. */
  function Split(s: string, separator: char): (parts: seq<string>)
    ensures |parts| >= 1
    decreases |s|
  {
    if s == [] then [""]
    else
      var rest := Split(s[1..], separator);
      if s[0] == separator then [""] + rest
      else [[s[0]] + rest[0]] + rest[1..]
  }

  /** The options after `prepareUrl` has written the two joined lists into them. */
  function Query(options: map<string, string>, destinations: seq<string>, origins: seq<string>): (query: map<string, string>)
    ensures query.Keys == options.Keys + {"destinations", "origins"}
    ensures query["destinations"] == Join(destinations, '|')
    ensures query["origins"] == Join(origins, '|')
    ensures forall k :: k in options && k != "destinations" && k != "origins" ==> query[k] == options[k]
  {
    options["destinations" := Join(destinations, '|')]["origins" := Join(origins, '|')]
  }

  /** The request URL, given the already encoded query string. */
  function RequestUrl(returnType: string, queryString: string, apiKey: string): string
  {
    GoogleUrl + returnType + "?" + queryString + "&key=" + apiKey
  }

  /** Both argument lists of `validateInput` are non-empty. */
  predicate Supplied(from: seq<string>, to: seq<string>) {
    |to| > 0 && |from| > 0
  }

  /** `validateInput` succeeds: fresh lists were supplied or some stored list is non-empty. */
  predicate InputAccepted(from: seq<string>, to: seq<string>, destinations: seq<string>, origins: seq<string>) {
    Supplied(from, to) || |destinations| > 0 || |origins| > 0
  }

  predicate IsFatal(status: string) {
    status == OverQueryLimit || status == RequestDenied
  }

  /** The verdict of `validateResponse` on a reply. */
  function Classify(response: Response): Checked
  {
    if IsFatal(response.status) then Raised(response.errorMessage)
    else if response.status == InvalidRequest
         || "" in response.destinationAddresses
         || "" in response.originAddresses then Rejected
    else Accepted(response)
  }

  /** The stored input at `index`; a missing index reads as PHP `null`, which prints as "". */
  function InputAt(inputs: seq<string>, index: nat): string {
    if index < |inputs| then inputs[index] else ""
  }

  function InvalidAddressMessage(kind: string, input: string): string {
    kind + " address '" + input + "' was invalid"
  }

  /** The messages one address loop appends: one per empty address, in index order. */
  function AddressDiagnostics(addresses: seq<string>, inputs: seq<string>, kind: string): seq<string>
    decreases |addresses|
  {
    if addresses == [] then []
    else
      var n := |addresses| - 1;
      AddressDiagnostics(addresses[..n], inputs, kind)
      + (if addresses[n] == "" then [InvalidAddressMessage(kind, InputAt(inputs, n))] else [])
  }

  /** Every message a non-fatal reply adds to `errors`: the request first, then destinations, then origins. */
  function Diagnostics(response: Response, destinations: seq<string>, origins: seq<string>): seq<string>
  {
    (if response.status == InvalidRequest then [InvalidRequestMessage] else [])
    + AddressDiagnostics(response.destinationAddresses, destinations, DestinationLabel)
    + AddressDiagnostics(response.originAddresses, origins, OriginLabel)
  }

  /** The messages a whole request adds to `errors`, given what the transport returned. */
  function Complaints(reply: Option<Response>, destinations: seq<string>, origins: seq<string>): seq<string>
  {
    if reply.Some? && !IsFatal(reply.value.status) then Diagnostics(reply.value, destinations, origins) else []
  }

  function SumDistances(elements: seq<Element>): int
  {
    if elements == [] then 0
    else SumDistances(elements[..|elements| - 1]) + elements[|elements| - 1].distanceValue
  }

  function SumDurations(elements: seq<Element>): int
  {
    if elements == [] then 0
    else SumDurations(elements[..|elements| - 1]) + elements[|elements| - 1].durationValue
  }

  /** The sum of `distance.value` over every element of every row. */
  function TotalDistance(rows: seq<Row>): int
  {
    if rows == [] then 0
    else TotalDistance(rows[..|rows| - 1]) + SumDistances(rows[|rows| - 1].elements)
  }

  /** The sum of `duration.value` over every element of every row. */
  function TotalDuration(rows: seq<Row>): int
  {
    if rows == [] then 0
    else TotalDuration(rows[..|rows| - 1]) + SumDurations(rows[|rows| - 1].elements)
  }

  /** What `getResponse` returns once a URL has been sent and the transport has answered. */
  function Answer(reply: Option<Response>): Outcome
  {
    if reply.None? then Failed
    else match Classify(reply.value)
      case Raised(message) => Thrown(message)
      case Rejected => Failed
      case Accepted(response) => Found(Route(TotalDistance(response.rows), TotalDuration(response.rows)))
  }

  /** The nested accumulation loops of `getResponse`. */
  method SumRows(rows: seq<Row>) returns (distance: int, duration: int)
    ensures distance == TotalDistance(rows)
    ensures duration == TotalDuration(rows)
  {
    distance, duration := 0, 0;
    var i := 0;
    while i < |rows|
      invariant 0 <= i <= |rows|
      invariant distance == TotalDistance(rows[..i])
      invariant duration == TotalDuration(rows[..i])
    {
      var elements := rows[i].elements;
      var j := 0;
      while j < |elements|
        invariant 0 <= j <= |elements|
        invariant distance == TotalDistance(rows[..i]) + SumDistances(elements[..j])
        invariant duration == TotalDuration(rows[..i]) + SumDurations(elements[..j])
      {
        assert elements[..j + 1][..j] == elements[..j];
        distance := distance + elements[j].distanceValue;
        duration := duration + elements[j].durationValue;
        j := j + 1;
      }
      assert elements[..j] == elements;
      assert rows[..i + 1][..i] == rows[..i];
      i := i + 1;
    }
    assert rows[..i] == rows;
  }

  /** The client. `dataFormat` is never read and is not kept. */
  class Distance {
    const apiKey: string
    const returnType: string
    var destinations: seq<string>
    var origins: seq<string>
    var errors: seq<string>
    var options: map<string, string>
    /** The URLs this client has sent to the provider, oldest first. */
    ghost var sentUrls: seq<string>

    constructor (apiKey: string, returnType: string)
      requires Truthy(Some(apiKey))
      ensures this.apiKey == apiKey && this.returnType == returnType
      ensures destinations == [] && origins == [] && errors == [] && options == map[]
      ensures sentUrls == []
    {
      this.apiKey := apiKey;
      this.returnType := returnType;
      destinations, origins, errors, options := [], [], [], map[];
      sentUrls := [];
    }

    /** `__construct`: raises when the key is falsy, otherwise stores it and the return type. */
    static method Construct(apiKey: Option<string>, returnType: string) returns (made: Result<Distance, string>)
      ensures made.Failure? <==> !Truthy(apiKey)
      ensures made.Failure? ==> made.error == MissingKeyMessage
      ensures made.Success? ==>
        && fresh(made.value)
        && made.value.apiKey == apiKey.value && made.value.returnType == returnType
        && made.value.destinations == [] && made.value.origins == []
        && made.value.errors == [] && made.value.options == map[]
        && made.value.sentUrls == []
    {
      if !Truthy(apiKey) {
        return Failure(MissingKeyMessage);
      }
      var d := new Distance(apiKey.value, returnType);
      return Success(d);
    }

    /** Replaces the options, but only with a non-empty map. */
    method ChangeOptions(newOptions: map<string, string>)
      modifies this`options
      ensures options == if |newOptions| > 0 then newOptions else old(options)
    {
      if |newOptions| > 0 {
        options := newOptions;
      }
    }

    method ValidateInput(from: seq<string>, to: seq<string>) returns (ok: bool)
      modifies this`destinations, this`origins
      ensures ok == InputAccepted(from, to, old(destinations), old(origins))
      ensures Supplied(from, to) ==> destinations == to && origins == from
      ensures !Supplied(from, to) ==> destinations == old(destinations) && origins == old(origins)
    {
      if |to| > 0 && |from| > 0 {
        destinations := to;
        origins := from;
        return true;
      } else if |destinations| < 1 && |origins| < 1 {
        return false;
      }
      return true;
    }

    /** Writes the joined lists into the options and builds the URL; `encode` is `http_build_query`. */
    method PrepareUrl(encode: map<string, string> -> string) returns (url: string)
      modifies this`options
      ensures options == Query(old(options), destinations, origins)
      ensures url == RequestUrl(returnType, encode(options), apiKey)
    {
      options := options["destinations" := Join(destinations, '|')];
      options := options["origins" := Join(origins, '|')];
      var optionsString := encode(options);
      url := RequestUrl(returnType, optionsString, apiKey);
    }

    /** One address loop of `validateResponse`: a message for every empty address, in index order.
        `found` tells whether any address was empty. */
    method ReportAddresses(addresses: seq<string>, inputs: seq<string>, kind: string) returns (found: bool)
      modifies this`errors
      ensures found <==> "" in addresses
      ensures errors == old(errors) + AddressDiagnostics(addresses, inputs, kind)
    {
      found := false;
      var i := 0;
      while i < |addresses|
        invariant 0 <= i <= |addresses|
        invariant errors == old(errors) + AddressDiagnostics(addresses[..i], inputs, kind)
        invariant found <==> "" in addresses[..i]
      {
        assert addresses[..i + 1] == addresses[..i] + [addresses[i]];
        assert addresses[..i + 1][..i] == addresses[..i];
        if addresses[i] == "" {
          found := true;
          errors := errors + [InvalidAddressMessage(kind, InputAt(inputs, i))];
        }
        i := i + 1;
      }
      assert addresses[..i] == addresses;
    }

    method ValidateResponse(response: Response) returns (checked: Checked)
      modifies this`errors
      ensures checked == Classify(response)
      ensures errors == old(errors) + (if checked.Raised? then [] else Diagnostics(response, destinations, origins))
    {
      var hasError := false;
      if response.status == OverQueryLimit {
        return Raised(response.errorMessage);
      }
      if response.status == RequestDenied {
        return Raised(response.errorMessage);
      }
      if response.status == InvalidRequest {
        hasError := true;
        errors := errors + [InvalidRequestMessage];
      }
      var badDestination := ReportAddresses(response.destinationAddresses, destinations, DestinationLabel);
      var badOrigin := ReportAddresses(response.originAddresses, origins, OriginLabel);
      hasError := hasError || badDestination || badOrigin;

      if hasError {
        return Rejected;
      }
      return Accepted(response);
    }

    /** `getResponse`: validate the input, build and send the URL, check the reply, sum it.
        `send` is the transport and JSON decoder; `None` is a transport failure. */
    method GetResponse(from: seq<string>, to: seq<string>,
                       encode: map<string, string> -> string, send: string -> Option<Response>)
      returns (outcome: Outcome)
      modifies this`destinations, this`origins, this`options, this`errors, this`sentUrls
      ensures !InputAccepted(from, to, old(destinations), old(origins)) ==>
        && outcome == Failed
        && destinations == old(destinations) && origins == old(origins)
        && options == old(options) && errors == old(errors) && sentUrls == old(sentUrls)
      ensures InputAccepted(from, to, old(destinations), old(origins)) ==>
        && destinations == (if Supplied(from, to) then to else old(destinations))
        && origins == (if Supplied(from, to) then from else old(origins))
        && options == Query(old(options), destinations, origins)
        && var url := RequestUrl(returnType, encode(options), apiKey);
           && sentUrls == old(sentUrls) + [url]
           && outcome == Answer(send(url))
           && errors == old(errors) + Complaints(send(url), destinations, origins)
    {
      var ok := ValidateInput(from, to);
      if !ok {
        return Failed;
      }
      var url := PrepareUrl(encode);
      sentUrls := sentUrls + [url];
      var reply := send(url);
      if reply.None? {
        return Failed;
      }
      var checked := ValidateResponse(reply.value);
      match checked
      case Raised(message) =>
        return Thrown(message);
      case Rejected =>
        return Failed;
      case Accepted(response) =>
        var distance, duration := SumRows(response.rows);
        return Found(Route(distance, duration));
    }
  }
}
