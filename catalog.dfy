/**
 * The catalog client of Movie-app/src/context/MovieService.jsx: two calls to the OMDb
 * endpoint, each wrapped in a try/catch that turns every failure into `{error: message}`.
 * The HTTP client is abstracted as `Api`, the answer the endpoint gives to one request.
 */
module Catalog {
  import opened Wrappers

  const ApiKey := "ef5e1e51"
  const BaseUrl := "https://www.omdbapi.com/"

  const GenericMessage := "Something went wrong. Please try again."
  const NetworkMessage := "Network error. Please check your internet connection."
  const FetchFailedMessage := "An error occurred while fetching data."

  /** Messages of the errors the service throws itself; `handleApiError` never shows them. */
  const QueryRequiredMessage := "Search query is required."
  const NoMoviesMessage := "No movies found."
  const IdRequiredMessage := "Movie ID is required."
  const DetailsNotFoundMessage := "Movie details not found."

  /** A title object as the pages read it; `imdbID` is `None` when the object has no such field. */
  datatype Movie = Movie(imdbID: Option<string>, title: string, year: string, poster: string, kind: string)

  /**
   * The JSON body of a 2xx reply: `Response`, `Error`, `Search`, `totalResults` (already
   * parsed to a number) and, on a detail reply, the title's own fields in `record`.
   */
  datatype Reply = Reply(
    response: string,
    errorText: Option<string>,
    search: Option<seq<Movie>>,
    totalResults: nat,
    record: Movie)

  /** The query parameters of one GET to `BaseUrl`. */
  datatype Request =
    | SearchRequest(apikey: string, s: string, page: int, typ: string)
    | DetailRequest(apikey: string, i: string, plot: string)

  /** What awaiting the HTTP client yields. */
  datatype Outcome =
    | Replied(data: Reply)              // a 2xx response
    | HttpError(body: Option<string>)   // error.response is set; body is error.response.data.Error
    | NoResponse                        // error.request is set, error.response is not
    | SetupFailure(message: string)     // the client failed before sending: neither is set

  /** The endpoint: the outcome of sending one request. */
  type Api = Request -> Outcome

  /** An exception as `handleApiError` inspects it. */
  datatype Thrown =
    | WithResponse(errorText: Option<string>)
    | WithRequest
    | Plain(message: string)

  /** Either the awaited body or the exception thrown inside the `try`. */
  datatype Attempted = Returned(data: Reply) | Threw(error: Thrown)

  /** What a service call resolves to: the reply body unchanged, or `{error: message}`. */
  datatype ServiceResult = Data(reply: Reply) | ErrorObject(error: string)

  /** JavaScript truthiness of an optional string field. */
  predicate Truthy(s: Option<string>) {
    s.Some? && s.value != ""
  }

  /** `handleApiError`: the message for a caught exception; the response check comes before the request check. */
  function HandleApiError(e: Thrown): (msg: string)
    ensures msg != ""
    ensures e.Plain? ==> msg == GenericMessage
  {
    match e
    case WithResponse(text) => if Truthy(text) then text.value else FetchFailedMessage
    case WithRequest => NetworkMessage
    case Plain(_) => GenericMessage
  }

  /** The `await` followed by the `Response === "False"` check, which throws a plain Error. */
  function Settle(o: Outcome, falseMessage: string): (r: Attempted)
    ensures r.Returned? <==> o.Replied? && o.data.response != "False"
    ensures r.Returned? ==> r.data == o.data
    ensures o.HttpError? ==> r == Threw(WithResponse(o.body))
    ensures o.NoResponse? ==> r == Threw(WithRequest)
  {
    match o
    case Replied(d) =>
      if d.response == "False" then Threw(Plain(if Truthy(d.errorText) then d.errorText.value else falseMessage))
      else Returned(d)
    case HttpError(body) => Threw(WithResponse(body))
    case NoResponse => Threw(WithRequest)
    case SetupFailure(m) => Threw(Plain(m))
  }

  /** The `catch` clause. */
  function Caught(a: Attempted): (r: ServiceResult)
    ensures r.Data? <==> a.Returned?
    ensures a.Returned? ==> r.reply == a.data
    ensures r.ErrorObject? ==> r.error != ""
  {
    match a
    case Returned(d) => Data(d)
    case Threw(e) => ErrorObject(HandleApiError(e))
  }

  /** The try block: a falsy argument throws before any request is sent. */
  function Attempt(api: Api, argument: string, missingMessage: string, req: Request, falseMessage: string): (r: Attempted)
    ensures argument == "" ==> r == Threw(Plain(missingMessage))
    ensures argument != "" ==> r == Settle(api(req), falseMessage)
  {
    if argument == "" then Threw(Plain(missingMessage)) else Settle(api(req), falseMessage)
  }

  /**
   * Reference classification of one outcome, written as the table the client implements:
   * a reply not marked `"False"` passes through, every other outcome becomes one message.
   */
  function Classified(o: Outcome): (r: ServiceResult)
    ensures r.Data? ==> o.Replied? && r.reply == o.data && r.reply.response != "False"
    ensures r.ErrorObject? ==> r.error != ""
  {
    match o
    case Replied(d) => if d.response == "False" then ErrorObject(GenericMessage) else Data(d)
    case HttpError(body) => ErrorObject(if Truthy(body) then body.value else FetchFailedMessage)
    case NoResponse => ErrorObject(NetworkMessage)
    case SetupFailure(_) => ErrorObject(GenericMessage)
  }

  /** `searchMovies(query, page = 1, type = "")`. */
  function SearchMovies(api: Api, query: string, page: int := 1, typ: string := ""): (r: ServiceResult)
    ensures query == "" ==> r == ErrorObject(GenericMessage)
    ensures query != "" ==> r == Classified(api(SearchRequest(ApiKey, query, page, typ)))
  {
    Caught(Attempt(api, query, QueryRequiredMessage, SearchRequest(ApiKey, query, page, typ), NoMoviesMessage))
  }

  /** `getMovieDetails(movieId)`, always asking for the full plot. */
  function GetMovieDetails(api: Api, movieId: string): (r: ServiceResult)
    ensures movieId == "" ==> r == ErrorObject(GenericMessage)
    ensures movieId != "" ==> r == Classified(api(DetailRequest(ApiKey, movieId, "full")))
  {
    Caught(Attempt(api, movieId, IdRequiredMessage, DetailRequest(ApiKey, movieId, "full"), DetailsNotFoundMessage))
  }

  /** A falsy query sends nothing: the result is the same whatever the endpoint would answer. */
  lemma EmptyQueryIsIndependentOfApi(api1: Api, api2: Api, page: int, typ: string)
    ensures SearchMovies(api1, "", page, typ) == SearchMovies(api2, "", page, typ) == ErrorObject(GenericMessage)
  {
  }

  /** A falsy id sends nothing either. */
  lemma EmptyIdIsIndependentOfApi(api1: Api, api2: Api)
    ensures GetMovieDetails(api1, "") == GetMovieDetails(api2, "") == ErrorObject(GenericMessage)
  {
  }

  /** The endpoint's own `Error` text of a `"False"` reply is discarded in favour of the generic message. */
  lemma FalseReplyIsGeneric(api: Api, query: string, page: int, typ: string, d: Reply)
    requires query != "" && api(SearchRequest(ApiKey, query, page, typ)) == Replied(d)
    requires d.response == "False"
    ensures SearchMovies(api, query, page, typ) == ErrorObject(GenericMessage)
  {
  }

  /** An HTTP error reports the body's `Error` when it is non-empty, the fixed message otherwise. */
  lemma HttpErrorMessage(api: Api, movieId: string, body: Option<string>)
    requires movieId != "" && api(DetailRequest(ApiKey, movieId, "full")) == HttpError(body)
    ensures GetMovieDetails(api, movieId) == ErrorObject(if Truthy(body) then body.value else FetchFailedMessage)
  {
  }

  /** A request that gets no response reports the connection message, whatever was asked. */
  lemma NoResponseMessage(api: Api, query: string, page: int, typ: string)
    requires query != "" && api(SearchRequest(ApiKey, query, page, typ)) == NoResponse
    ensures SearchMovies(api, query, page, typ) == ErrorObject(NetworkMessage)
  {
  }
}
