/** Whole request sequences against a fresh directory, log and controller,
    proved from the operations' contracts alone. */
module Scenarios {
  import opened Wrappers
  import opened Exceptions
  import opened ZipCodes
  import opened Users
  import opened Weather
  import opened Controller

  /** Registering the same email twice: the first call succeeds, the second
      is a conflict carrying the directory's message and saves nothing. */
  method RegisterTwice(email: string)
    returns (first: Response<string>, second: Response<string>, ghost store: map<string, User>)
    requires IsValidEmail(email)
    ensures first == Response(OK, RegisteredMessage)
    ensures second == Response(CONFLICT, AlreadyRegisteredMessage)
    ensures store == map[email := User(email, true)]
  {
    var users := new UserService();
    var weather := new WeatherService("", "");
    var controller := new UserController(users, weather);
    var r1 := controller.RegisterUser(email);
    var r2 := controller.RegisterUser(email);
    first := r1.value;
    second := Handle(r2.error);
    store := users.users;
  }

  /** A registered but deactivated user is refused with 403 whatever the ZIP
      code, and the provider is never asked. */
  method WeatherForInactiveUser(email: string, zipCode: string, outcome: ProviderOutcome, now: Timestamp)
    returns (r: Response<Option<WeatherResponseDTO>>, ghost fetches: nat, logged: nat)
    requires IsValidEmail(email)
    ensures r == Response(FORBIDDEN, Some(ErrorBody(InactiveDetails)))
    ensures fetches == 0 && logged == 0
  {
    var users := new UserService();
    var weather := new WeatherService("", "");
    var controller := new UserController(users, weather);
    var _ := controller.RegisterUser(email);
    var _ := controller.DeactivateUser(email);
    var w := controller.GetWeather(email, zipCode, outcome, now);
    r := w.value;
    fetches := |weather.fetched|;
    logged := |weather.log|;
  }

  /** An unknown user asking for weather gets 400 with the "not found" body
      and causes no fetch and no log entry; activating an unknown user is a
      500 carrying "User not found". */
  method UnknownUser(email: string, zipCode: string, outcome: ProviderOutcome, now: Timestamp)
    returns (weather: Response<Option<WeatherResponseDTO>>, activate: Response<string>, logged: nat)
    ensures weather == Response(BAD_REQUEST, Some(ErrorBody(NotRegisteredDetails)))
    ensures activate == Response(INTERNAL_SERVER_ERROR, UserNotFoundMessage)
    ensures logged == 0
  {
    var users := new UserService();
    var service := new WeatherService("", "");
    var controller := new UserController(users, service);
    var w := controller.GetWeather(email, zipCode, outcome, now);
    weather := w.value;
    var a := controller.ActivateUser(email);
    activate := Handle(a.error);
    logged := |service.log|;
  }

  /** An active user with a valid ZIP code gets back its email, its ZIP code
      and the provider's payload unchanged, and the history for that ZIP code then holds exactly that
      one lookup. */
  method WeatherThenHistory(email: string, zipCode: string, payload: string, now: Timestamp)
    returns (r: Response<Option<WeatherResponseDTO>>, history: Response<seq<WeatherResponseDTO>>)
    requires IsValidEmail(email) && IsValidUSZipCode(zipCode)
    ensures r == Response(OK, Some(WeatherResponseDTO(Some(email), Some(zipCode), Some(payload), Some(now))))
    ensures history.status == OK && |history.body| == 1
    ensures RequestOf(history.body[0]) == Some(WeatherRequest(email, zipCode, payload, now))
  {
    var users := new UserService();
    var weather := new WeatherService("", "");
    var controller := new UserController(users, weather);
    var _ := controller.RegisterUser(email);
    var w := controller.GetWeather(email, zipCode, Payload(payload), now);
    r := w.value;
    HistoryAfterAppend([], WeatherRequest(email, zipCode, payload, now), zipCode, email);
    history := controller.GetHistory(zipCode, email);
  }
}
