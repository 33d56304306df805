/**
 * The HTTP adapter of the feature (features/weather/weather_controller.go).
 *
 * `GetWeatherByCep` reads the `cep` path parameter, calls the use case and turns its result
 * into a reply. The use case is an oracle here; whether the request's deadline has passed is
 * an input, read only when the use case fails.
 */
module WeatherController {
  import opened Wrappers
  import opened HttpStatus
  import opened ApiErrors
  import opened HttpResponse
  import opened CepValueObject
  import opened GetWeatherByCepUseCase

  /** The `error` a use case may return: an `*APIError`, or any other error with its text. */
  datatype UseCaseError = Api(apiError: APIError) | Other(text: string) {

    /** `err.Error()` */
    function Error(): (s: string)
      ensures Api? ==> s == apiError.Error()
      ensures Other? ==> s == text
    {
      match this
      case Api(e) => e.Error()
      case Other(t) => t
    }
  }

  /** `(*GetWeatherByCepOutput, error)` as the controller receives it through the interface. */
  datatype UseCaseReply = UseCaseReply(output: Option<Output>, err: Option<UseCaseError>)

  /** What one request does: the input the use case was called with, if it was called, and the
    * reply written, if one was. */
  datatype Handling = Handling(invoked: Option<Input>, reply: Option<Reply>)

  const MissingCepMessage: string := "CEP parameter is required"
  const MissingCepCause: string := "CEP parameter must be provided in the URL path"
  const FailureMessage: string := "Failed to get weather data"
  const SuccessMessage: string := "Weather data retrieved successfully"

  /** `WeatherController.GetWeatherByCep` */
  function GetWeatherByCep(cepParam: string, execute: Input -> UseCaseReply, deadlineExceeded: bool): (h: Handling)
    // a missing parameter is refused before the use case is called
    ensures h.invoked.None? <==> cepParam == ""
    ensures cepParam == "" ==>
      h.reply == Some(Reply(StatusBadRequest, APIResponse(None, MissingCepMessage, [MissingCepCause])))
    // otherwise the use case sees the raw parameter
    ensures cepParam != "" ==> h.invoked == Some(Input(cepParam))
    // nothing is written only after a failure past the deadline
    ensures h.reply.None? <==> cepParam != "" && execute(Input(cepParam)).err.Some? && deadlineExceeded
    ensures h.reply.Some? && h.invoked.Some? ==>
      var u := execute(Input(cepParam));
      match u.err
      case None => h.reply.value == Reply(StatusOK, APIResponse(u.output, SuccessMessage, []))
      case Some(Api(e)) => ReportsError(h.reply.value, e)
      case Some(Other(t)) => h.reply.value == Reply(StatusInternalServerError, APIResponse(None, FailureMessage, [t]))
  {
    if cepParam == "" then
      Handling(None, Some(RespondWithValidationError(MissingCepMessage, [MissingCepCause])))
    else
      var input := Input(cepParam);
      var u := execute(input);
      if u.err.Some? then
        if deadlineExceeded then
          Handling(Some(input), None)
        else
          match u.err.value
          case Api(apiErr) => Handling(Some(input), Some(RespondWithAPIError(apiErr)))
          case Other(_) =>
            Handling(Some(input), Some(RespondWithInternalError(FailureMessage, [u.err.value.Error()])))
      else
        Handling(Some(input), Some(RespondWithSuccess(u.output, SuccessMessage)))
  }

  // ---------------------------------------------------------------------------
  // The controller over the use case
  // ---------------------------------------------------------------------------

  /** The use case's result as the controller's interface delivers it. */
  function AsUseCaseReply(r: Execution): (u: UseCaseReply)
    ensures u.output == r.output
    ensures u.err.None? <==> r.err.None?
    ensures r.err.Some? ==> u.err == Some(Api(r.err.value))
  {
    UseCaseReply(r.output, if r.err.Some? then Some(Api(r.err.value)) else None)
  }

  /** One request through the controller and the use case, over the two lookups. */
  function Serve(cepParam: string, getAddress: Cep -> Outcome<ViaCepResponse>,
                 getWeather: string -> Outcome<WeatherResponse>, deadlineExceeded: bool): Handling
  {
    GetWeatherByCep(cepParam, input => AsUseCaseReply(Execute(input, getAddress, getWeather)), deadlineExceeded)
  }

  /** The controller reads the use case only at the raw parameter. */
  lemma GetWeatherByCepReadsOneInput(cepParam: string, execute1: Input -> UseCaseReply,
                                     execute2: Input -> UseCaseReply, deadlineExceeded: bool)
    requires execute1(Input(cepParam)) == execute2(Input(cepParam))
    ensures GetWeatherByCep(cepParam, execute1, deadlineExceeded) == GetWeatherByCep(cepParam, execute2, deadlineExceeded)
  {
  }

  /** Serving a request is the controller given the use case's answer for that request. */
  lemma ServeUnfold(cepParam: string, getAddress: Cep -> Outcome<ViaCepResponse>,
                    getWeather: string -> Outcome<WeatherResponse>, deadlineExceeded: bool)
    ensures var u := AsUseCaseReply(Execute(Input(cepParam), getAddress, getWeather));
      Serve(cepParam, getAddress, getWeather, deadlineExceeded) == GetWeatherByCep(cepParam, _ => u, deadlineExceeded)
  {
    var u := AsUseCaseReply(Execute(Input(cepParam), getAddress, getWeather));
    var execute := input => AsUseCaseReply(Execute(input, getAddress, getWeather));
    var answer := (_: Input) => u;
    assert execute(Input(cepParam)) == answer(Input(cepParam));
    GetWeatherByCepReadsOneInput(cepParam, execute, answer, deadlineExceeded);
  }

  /** The status a request should get, read off the request and the two lookups alone:
    * 400 for a missing parameter, 422 for a malformed CEP, 404 when the address lookup fails,
    * 502 when the weather lookup fails and 200 otherwise. */
  function ExpectedStatus(cepParam: string, getAddress: Cep -> Outcome<ViaCepResponse>,
                          getWeather: string -> Outcome<WeatherResponse>): int
  {
    var cep := NewCep(cepParam).cep;
    if cepParam == "" then StatusBadRequest
    else if !Accepts(cepParam) then StatusUnprocessableEntity
    else if getAddress(cep).Failed? then StatusNotFound
    else if getWeather(getAddress(cep).value.city).Failed? then StatusBadGateway
    else StatusOK
  }

  /** Each status names exactly one kind of request. */
  lemma ExpectedStatusClassifies(cepParam: string, getAddress: Cep -> Outcome<ViaCepResponse>,
                                 getWeather: string -> Outcome<WeatherResponse>)
    ensures var status := ExpectedStatus(cepParam, getAddress, getWeather);
      var cep := NewCep(cepParam).cep;
      && status in {StatusBadRequest, StatusUnprocessableEntity, StatusNotFound, StatusBadGateway, StatusOK}
      && (status == StatusBadRequest <==> cepParam == "")
      && (status == StatusUnprocessableEntity <==> cepParam != "" && !Accepts(cepParam))
      && (status == StatusNotFound <==> cepParam != "" && Accepts(cepParam) && getAddress(cep).Failed?)
      && (status == StatusBadGateway <==>
            cepParam != "" && Accepts(cepParam) && getAddress(cep).Ok? && getWeather(getAddress(cep).value.city).Failed?)
      && (status == StatusOK <==>
            cepParam != "" && Accepts(cepParam) && getAddress(cep).Ok? && getWeather(getAddress(cep).value.city).Ok?)
  {
  }

  /** Before its deadline every request is answered, with the status that classifies it. */
  lemma ServeStatus(cepParam: string, getAddress: Cep -> Outcome<ViaCepResponse>,
                    getWeather: string -> Outcome<WeatherResponse>)
    ensures var h := Serve(cepParam, getAddress, getWeather, false);
      h.reply.Some? && h.reply.value.status == ExpectedStatus(cepParam, getAddress, getWeather)
  {
    var cep := NewCep(cepParam).cep;
    var h := Serve(cepParam, getAddress, getWeather, false);
    if cepParam == "" {
      ServeUnfold(cepParam, getAddress, getWeather, false);
      assert h.reply.value.status == StatusBadRequest;
    } else if !Accepts(cepParam) {
      InvalidCepIsRejected(Input(cepParam), getAddress, getWeather);
      ServeFailure(cepParam, getAddress, getWeather, false);
      assert h.reply.value.status == StatusUnprocessableEntity;
    } else if getAddress(cep).Failed? {
      AddressFailureIsNotFound(Input(cepParam), getAddress, getWeather);
      ServeFailure(cepParam, getAddress, getWeather, false);
      assert h.reply.value.status == StatusNotFound;
    } else {
      var address := getAddress(cep).value;
      if getWeather(address.city).Failed? {
        WeatherFailureIsServiceError(Input(cepParam), getAddress, getWeather, address);
        ServeFailure(cepParam, getAddress, getWeather, false);
        assert h.reply.value.status == StatusBadGateway;
      } else {
        ServeSuccess(cepParam, getAddress, getWeather, false, address, getWeather(address.city).value);
        assert h.reply.value.status == StatusOK;
      }
    }
  }

  /** A successful request answers 200 with the Celsius and Fahrenheit of the reading and
    * Kelvin = Celsius + 273.15, under the success message. */
  lemma ServeSuccess(cepParam: string, getAddress: Cep -> Outcome<ViaCepResponse>,
                     getWeather: string -> Outcome<WeatherResponse>, deadlineExceeded: bool,
                     address: ViaCepResponse, reading: WeatherResponse)
    requires cepParam != "" && Accepts(cepParam)
    requires getAddress(NewCep(cepParam).cep) == Ok(address) && getWeather(address.city) == Ok(reading)
    ensures Serve(cepParam, getAddress, getWeather, deadlineExceeded).reply
      == Some(Reply(StatusOK, APIResponse(
           Some(Output(reading.current.tempC, reading.current.tempF, reading.current.tempC + KelvinOffset)),
           SuccessMessage, [])))
  {
    ExecuteSuccess(Input(cepParam), getAddress, getWeather, address, reading);
    ServeUnfold(cepParam, getAddress, getWeather, deadlineExceeded);
  }

  /** A failed request answers with the use case's error: 422 "invalid zipcode",
    * 404 "can not find zipcode" or 502 "Weather service temporarily unavailable" — unless the
    * deadline has passed, when nothing is written. */
  lemma ServeFailure(cepParam: string, getAddress: Cep -> Outcome<ViaCepResponse>,
                     getWeather: string -> Outcome<WeatherResponse>, deadlineExceeded: bool)
    requires cepParam != ""
    requires Execute(Input(cepParam), getAddress, getWeather).err.Some?
    ensures var h := Serve(cepParam, getAddress, getWeather, deadlineExceeded);
      var e := Execute(Input(cepParam), getAddress, getWeather).err.value;
      && h.invoked == Some(Input(cepParam))
      && (deadlineExceeded <==> h.reply.None?)
      && (!deadlineExceeded ==> h.reply == Some(Reply(e.statusCode, APIResponse(None, e.message, e.causes))))
      && e.statusCode in {StatusUnprocessableEntity, StatusNotFound, StatusBadGateway}
  {
    ServeUnfold(cepParam, getAddress, getWeather, deadlineExceeded);
  }

  /** weather_controller_test.go: the use case's three errors and an unknown error through the
    * controller, given as use-case answers. */
  lemma ControllerErrorExamples(execute: Input -> UseCaseReply)
    ensures execute(Input("invalid-cep")) == UseCaseReply(None, Some(Api(WeatherErrors.NewInvalidZipcodeError()))) ==>
      GetWeatherByCep("invalid-cep", execute, false).reply.value.status == StatusUnprocessableEntity &&
      GetWeatherByCep("invalid-cep", execute, false).reply.value.body.message == "invalid zipcode"
    ensures execute(Input("99999-999")) == UseCaseReply(None, Some(Api(WeatherErrors.NewZipcodeNotFoundError()))) ==>
      GetWeatherByCep("99999-999", execute, false).reply.value.status == StatusNotFound &&
      GetWeatherByCep("99999-999", execute, false).reply.value.body.message == "can not find zipcode"
    ensures execute(Input("12345-678")) == UseCaseReply(None, Some(Api(WeatherErrors.NewWeatherServiceError()))) ==>
      GetWeatherByCep("12345-678", execute, false).reply.value.status == StatusBadGateway
    ensures execute(Input("12345-678")) == UseCaseReply(None, Some(Other("unknown error"))) ==>
      GetWeatherByCep("12345-678", execute, false).reply
        == Some(Reply(StatusInternalServerError, APIResponse(None, FailureMessage, ["unknown error"])))
  {
  }
}
