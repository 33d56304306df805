/**
 * The get-weather-by-CEP use case
 * (features/weather/getWeatherByCep/get_weather_by_cep_usecase.go).
 *
 * `Execute` runs four steps in a line: validate the CEP, look up the address, look up the
 * weather for the address's city, and compute Kelvin. The two lookups are the repositories'
 * `GetAddress` and `GetWeather`; here they are oracles that return an `Outcome`, and the
 * result records the lookups in the order they were made.
 */
module GetWeatherByCepUseCase {
  import opened Wrappers
  import opened CepValueObject
  import opened ApiErrors
  import opened WeatherErrors

  /** The address lookup's answer (shared/repositories/external_apis/viapcep/types.go). */
  datatype ViaCepResponse = ViaCepResponse(
    cep: string, street: string, complement: string, district: string, city: string,
    state: string, ibgeCode: string, giaCode: string, siafiCode: string)

  /** The weather lookup's answer: the fields of `WeatherResponse` the feature reads. */
  datatype Location = Location(name: string, region: string, country: string)
  datatype Condition = Condition(text: string)
  datatype Current = Current(tempC: real, tempF: real, condition: Condition)
  datatype WeatherResponse = WeatherResponse(location: Location, current: Current)

  /** What a lookup returns: a value, or a failure of any kind (transport, status, decoding,
    * cancellation), whose text only reaches the log. */
  datatype Outcome<T> = Ok(value: T) | Failed(reason: string)

  /** `GetWeatherByCepInput` */
  datatype Input = Input(cepString: string)

  /** `GetWeatherByCepOutput` */
  datatype Output = Output(tempC: real, tempF: real, tempK: real)

  /** A call made to a collaborator, with the argument it was given. */
  datatype Lookup = AddressLookup(cep: Cep) | WeatherLookup(city: string)

  /** `(*GetWeatherByCepOutput, error)` together with the lookups made on the way. */
  datatype Execution = Execution(output: Option<Output>, err: Option<APIError>, lookups: seq<Lookup>)

  const KelvinOffset: real := 273.15

  /** `getWeatherByCepUseCase.Execute` */
  function Execute(input: Input, getAddress: Cep -> Outcome<ViaCepResponse>,
                   getWeather: string -> Outcome<WeatherResponse>): (r: Execution)
    // exactly one of result and error
    ensures (r.output == None) != (r.err == None)
    ensures r.err.Some? ==>
      r.err.value in {NewInvalidZipcodeError(), NewZipcodeNotFoundError(), NewWeatherServiceError()}
    // step 1: an invalid CEP is reported before anything is looked up
    ensures r.err == Some(NewInvalidZipcodeError()) <==> !Accepts(input.cepString)
    ensures r.lookups == [] <==> !Accepts(input.cepString)
    // step 2: the address lookup, made once, with the normalised CEP
    ensures |r.lookups| <= 2
    ensures r.lookups != [] ==> r.lookups[0] == AddressLookup(NewCep(input.cepString).cep)
    ensures r.err == Some(NewZipcodeNotFoundError()) <==>
      Accepts(input.cepString) && getAddress(NewCep(input.cepString).cep).Failed?
    // step 3: the weather lookup, made once, after a found address and with its city
    ensures |r.lookups| == 2 <==> Accepts(input.cepString) && getAddress(NewCep(input.cepString).cep).Ok?
    ensures |r.lookups| == 2 ==>
      r.lookups[1] == WeatherLookup(getAddress(NewCep(input.cepString).cep).value.city)
    ensures r.err == Some(NewWeatherServiceError()) <==>
      |r.lookups| == 2 && getWeather(r.lookups[1].city).Failed?
    // step 4: success carries the reading's temperatures and Kelvin = Celsius + 273.15
    ensures r.output.Some? <==> |r.lookups| == 2 && getWeather(r.lookups[1].city).Ok?
    ensures r.output.Some? ==>
      && r.output.value.tempC == getWeather(r.lookups[1].city).value.current.tempC
      && r.output.value.tempF == getWeather(r.lookups[1].city).value.current.tempF
      && r.output.value.tempK == r.output.value.tempC + KelvinOffset
  {
    var c := NewCep(input.cepString);
    if c.err.Some? then
      Execution(None, Some(NewInvalidZipcodeError()), [])
    else
      LookUp(c.cep, getAddress, getWeather)
  }

  /** Steps 2 to 4 of `Execute`, from a validated CEP. */
  function LookUp(cep: Cep, getAddress: Cep -> Outcome<ViaCepResponse>,
                  getWeather: string -> Outcome<WeatherResponse>): (r: Execution)
    ensures (r.output == None) != (r.err == None)
    ensures 1 <= |r.lookups| <= 2 && r.lookups[0] == AddressLookup(cep)
    ensures r.err == Some(NewZipcodeNotFoundError()) <==> getAddress(cep).Failed?
    ensures |r.lookups| == 2 <==> getAddress(cep).Ok?
    ensures |r.lookups| == 1 ==> r == Execution(None, Some(NewZipcodeNotFoundError()), [AddressLookup(cep)])
    ensures |r.lookups| == 2 ==> r.lookups[1] == WeatherLookup(getAddress(cep).value.city)
    ensures |r.lookups| == 2 && getWeather(r.lookups[1].city).Failed? ==>
      r == Execution(None, Some(NewWeatherServiceError()), r.lookups)
    ensures |r.lookups| == 2 && getWeather(r.lookups[1].city).Ok? ==>
      var reading := getWeather(r.lookups[1].city).value.current;
      r == Execution(Some(Output(reading.tempC, reading.tempF, reading.tempC + KelvinOffset)), None, r.lookups)
  {
    match getAddress(cep)
    case Failed(_) =>
      Execution(None, Some(NewZipcodeNotFoundError()), [AddressLookup(cep)])
    case Ok(address) =>
      var calls := [AddressLookup(cep), WeatherLookup(address.city)];
      match getWeather(address.city)
      case Failed(_) =>
        Execution(None, Some(NewWeatherServiceError()), calls)
      case Ok(weatherData) =>
        var tempKelvin := weatherData.current.tempC + KelvinOffset;
        Execution(Some(Output(weatherData.current.tempC, weatherData.current.tempF, tempKelvin)), None, calls)
  }

  /** A malformed CEP is rejected with `INVALID_ZIPCODE` before anything is looked up. */
  lemma InvalidCepIsRejected(input: Input, getAddress: Cep -> Outcome<ViaCepResponse>,
                             getWeather: string -> Outcome<WeatherResponse>)
    requires !Accepts(input.cepString)
    ensures Execute(input, getAddress, getWeather) == Execution(None, Some(NewInvalidZipcodeError()), [])
  {
  }

  /** Which failure the address lookup reports does not matter: every one becomes
    * `ZIPCODE_NOT_FOUND`, and the weather is not asked for. */
  lemma AddressFailureIsNotFound(input: Input, getAddress: Cep -> Outcome<ViaCepResponse>,
                                 getWeather: string -> Outcome<WeatherResponse>)
    requires Accepts(input.cepString)
    requires getAddress(NewCep(input.cepString).cep).Failed?
    ensures Execute(input, getAddress, getWeather)
      == Execution(None, Some(NewZipcodeNotFoundError()), [AddressLookup(NewCep(input.cepString).cep)])
  {
  }

  /** Any failure of the weather lookup after a found address becomes the weather-service error,
    * after exactly two lookups. */
  lemma WeatherFailureIsServiceError(input: Input, getAddress: Cep -> Outcome<ViaCepResponse>,
                                     getWeather: string -> Outcome<WeatherResponse>, address: ViaCepResponse)
    requires Accepts(input.cepString)
    requires getAddress(NewCep(input.cepString).cep) == Ok(address) && getWeather(address.city).Failed?
    ensures Execute(input, getAddress, getWeather)
      == Execution(None, Some(NewWeatherServiceError()),
                   [AddressLookup(NewCep(input.cepString).cep), WeatherLookup(address.city)])
  {
    var c := NewCep(input.cepString);
    assert Execute(input, getAddress, getWeather) == LookUp(c.cep, getAddress, getWeather);
  }

  /** When both lookups answer, the reading's temperatures come back with Kelvin added, after
    * exactly two lookups. */
  lemma ExecuteSuccess(input: Input, getAddress: Cep -> Outcome<ViaCepResponse>,
                       getWeather: string -> Outcome<WeatherResponse>,
                       address: ViaCepResponse, reading: WeatherResponse)
    requires Accepts(input.cepString)
    requires getAddress(NewCep(input.cepString).cep) == Ok(address) && getWeather(address.city) == Ok(reading)
    ensures Execute(input, getAddress, getWeather)
      == Execution(Some(Output(reading.current.tempC, reading.current.tempF, reading.current.tempC + KelvinOffset)),
                   None, [AddressLookup(NewCep(input.cepString).cep), WeatherLookup(address.city)])
  {
    var c := NewCep(input.cepString);
    assert Execute(input, getAddress, getWeather) == LookUp(c.cep, getAddress, getWeather);
    LookUpSuccess(c.cep, getAddress, getWeather, address, reading);
  }

  /** `LookUp` when both lookups answer. */
  lemma LookUpSuccess(cep: Cep, getAddress: Cep -> Outcome<ViaCepResponse>,
                      getWeather: string -> Outcome<WeatherResponse>,
                      address: ViaCepResponse, reading: WeatherResponse)
    requires getAddress(cep) == Ok(address) && getWeather(address.city) == Ok(reading)
    ensures LookUp(cep, getAddress, getWeather)
      == Execution(Some(Output(reading.current.tempC, reading.current.tempF, reading.current.tempC + KelvinOffset)),
                   None, [AddressLookup(cep), WeatherLookup(address.city)])
  {
  }

  /** The result depends on the lookups only through what they answer for the arguments
    * this call hands them. */
  lemma ExecuteDependsOnlyOnLookedUp(input: Input,
                                     getAddress1: Cep -> Outcome<ViaCepResponse>,
                                     getAddress2: Cep -> Outcome<ViaCepResponse>,
                                     getWeather1: string -> Outcome<WeatherResponse>,
                                     getWeather2: string -> Outcome<WeatherResponse>)
    requires forall l | l in Execute(input, getAddress1, getWeather1).lookups ::
      match l
      case AddressLookup(cep) => getAddress1(cep) == getAddress2(cep)
      case WeatherLookup(city) => getWeather1(city) == getWeather2(city)
    ensures Execute(input, getAddress1, getWeather1) == Execute(input, getAddress2, getWeather2)
  {
    var c := NewCep(input.cepString);
    if c.err.None? {
      var r := LookUp(c.cep, getAddress1, getWeather1);
      assert Execute(input, getAddress1, getWeather1) == r;
      assert Execute(input, getAddress2, getWeather2) == LookUp(c.cep, getAddress2, getWeather2);
      assert r.lookups[0] in r.lookups;
      if getAddress1(c.cep).Ok? {
        assert r.lookups[1] in r.lookups;
      }
      LookUpDependsOnlyOnLookedUp(c.cep, getAddress1, getAddress2, getWeather1, getWeather2);
    }
  }

  /** `LookUp` reads the address lookup at the CEP and the weather lookup at the found city only. */
  lemma LookUpDependsOnlyOnLookedUp(cep: Cep,
                                    getAddress1: Cep -> Outcome<ViaCepResponse>,
                                    getAddress2: Cep -> Outcome<ViaCepResponse>,
                                    getWeather1: string -> Outcome<WeatherResponse>,
                                    getWeather2: string -> Outcome<WeatherResponse>)
    requires getAddress1(cep) == getAddress2(cep)
    requires getAddress1(cep).Ok? ==>
      getWeather1(getAddress1(cep).value.city) == getWeather2(getAddress1(cep).value.city)
    ensures LookUp(cep, getAddress1, getWeather1) == LookUp(cep, getAddress2, getWeather2)
  {
  }

  /** get_weather_by_cep_usecase_test.go: "invalid-cep" is rejected with no lookup. */
  lemma InvalidCepExample(getAddress: Cep -> Outcome<ViaCepResponse>,
                          getWeather: string -> Outcome<WeatherResponse>)
    ensures Execute(Input("invalid-cep"), getAddress, getWeather)
      == Execution(None, Some(NewInvalidZipcodeError()), [])
  {
    NewCepRejectsUnpadded("invalid-cep");
    InvalidCepIsRejected(Input("invalid-cep"), getAddress, getWeather);
  }

  /** The address lookup is given the normalised CEP, not the raw string. */
  lemma PlainCepIsLookedUpDashed(input: Input, getAddress: Cep -> Outcome<ViaCepResponse>,
                                 getWeather: string -> Outcome<WeatherResponse>)
    requires IsPlainShape(TrimSpace(input.cepString))
    ensures var t := TrimSpace(input.cepString);
      var r := Execute(input, getAddress, getWeather);
      r.lookups != [] && r.lookups[0] == AddressLookup(Cep(t[..5] + "-" + t[5..]))
  {
    NewCepInsertsDash(input.cepString);
  }

  /** "12345678" is looked up as "12345-678". */
  lemma NormalisedCepExample(getAddress: Cep -> Outcome<ViaCepResponse>,
                             getWeather: string -> Outcome<WeatherResponse>)
    ensures var r := Execute(Input("12345678"), getAddress, getWeather);
      r.lookups != [] && r.lookups[0] == AddressLookup(Cep("12345-678"))
  {
    NewCepPlainExample();
  }

  /** get_weather_by_cep_usecase_test.go: the success case, in exact arithmetic. */
  lemma SuccessExample(getAddress: Cep -> Outcome<ViaCepResponse>,
                       getWeather: string -> Outcome<WeatherResponse>,
                       address: ViaCepResponse, reading: WeatherResponse)
    requires address.city == "São Paulo" && getAddress(Cep("12345-678")) == Ok(address)
    requires reading.current.tempC == 25.5 && reading.current.tempF == 77.9
    requires getWeather("São Paulo") == Ok(reading)
    ensures Execute(Input("12345-678"), getAddress, getWeather)
      == Execution(Some(Output(25.5, 77.9, 298.65)), None,
                   [AddressLookup(Cep("12345-678")), WeatherLookup("São Paulo")])
  {
    NewCepDashedExample();
  }
}
