/** What a FastAPI route hands back: a JSON body, an `HTTPException`
    (status code and detail), or an exception FastAPI turns into a 500. */
module Api {
  import opened JsonValue

  datatype RouteResult =
    | Body(json: Json)
    | HttpError(statusCode: int, detail: string)
    | Unhandled
}
