/**
 * The API server's last-resort error responses
 * (server/middleware/errorHandler.js): the status and JSON body sent for an
 * error that reached Express, and the body sent for an unknown route.
 */
module ErrorResponses {
  import opened Wrappers
  import opened JsString
  import CorsPolicy

  /** The fields of the thrown error the handler reads; `None` for an absent one. */
  datatype Failure = Failure(message: Option<string>, name: Option<string>, statusCode: Option<int>, stack: Option<string>)

  /** A status and the JSON body; `None` for a field that is left out or `undefined`. */
  datatype Response = Response(status: int, error: string, message: Option<string>, stack: Option<string>)

  const Forbidden := Response(403, "禁止訪問", Some("此來源不被允許訪問 API"), None)
  const Unauthorized := Response(401, "未授權", Some("請提供有效的認證"), None)
  const ValidationLabel := "驗證失敗"
  const ServerErrorLabel := "伺服器錯誤"
  const RequestFailedLabel := "請求失敗"
  const GenericMessage := "處理請求時發生錯誤，請稍後再試"
  const NotFoundBody := Response(404, "未找到", Some("請求的資源不存在"), None)

  /** `err.statusCode || 500`. */
  function StatusOf(f: Failure): (r: int)
    ensures f.statusCode.Some? && f.statusCode.value != 0 ==> r == f.statusCode.value
    ensures !(f.statusCode.Some? && f.statusCode.value != 0) ==> r == 500
  {
    if f.statusCode.Some? && f.statusCode.value != 0 then f.statusCode.value else 500
  }

  /** Whether the error is one of the three the handler names. */
  predicate Recognised(f: Failure) {
    f.message == Some(CorsPolicy.CorsRejection) || f.name == Some("ValidationError") || f.name == Some("UnauthorizedError")
  }

  /** `errorHandler(err, req, res, next)` with `NODE_ENV` equal to 'production' or not. */
  function Handle(f: Failure, production: bool): (r: Response)
    ensures f.message == Some(CorsPolicy.CorsRejection) ==> r == Forbidden
    ensures f.message != Some(CorsPolicy.CorsRejection) && f.name == Some("ValidationError")
            ==> r == Response(400, ValidationLabel, f.message, None)
    ensures f.message != Some(CorsPolicy.CorsRejection) && f.name == Some("UnauthorizedError") ==> r == Unauthorized
    ensures !Recognised(f) ==> r.status == StatusOf(f)
    ensures !Recognised(f) ==> (r.error == ServerErrorLabel <==> r.status == 500)
    ensures !Recognised(f) && r.error != ServerErrorLabel ==> r.error == RequestFailedLabel
    ensures !Recognised(f) && production ==> r.message == Some(GenericMessage) && r.stack.None?
    ensures !Recognised(f) && !production ==> r.message == f.message && r.stack == f.stack
  {
    if f.message == Some(CorsPolicy.CorsRejection) then Forbidden
    else if f.name == Some("ValidationError") then Response(400, ValidationLabel, f.message, None)
    else if f.name == Some("UnauthorizedError") then Unauthorized
    else
      var status := StatusOf(f);
      Response(status,
               if status == 500 then ServerErrorLabel else RequestFailedLabel,
               if production then Some(GenericMessage) else f.message,
               if production then None else f.stack)
  }

  /** A request the CORS policy refuses is answered 403, whatever else the error says. */
  lemma RefusedOriginForbidden(env: CorsPolicy.Env, origin: Option<string>, name: Option<string>, statusCode: Option<int>, stack: Option<string>, production: bool)
    requires CorsPolicy.CheckOrigin(env, origin).Reject?
    ensures Handle(Failure(Some(CorsPolicy.CheckOrigin(env, origin).message), name, statusCode, stack), production).status == 403
  {
  }

  /** In production no response carries a stack trace, and only a validation error carries its own message. */
  lemma ProductionHidesDetails(f: Failure)
    ensures Handle(f, true).stack.None?
    ensures Handle(f, true).message == f.message ==>
      f.message == Some(GenericMessage) || f.message == Forbidden.message || f.message == Unauthorized.message
      || (f.message != Some(CorsPolicy.CorsRejection) && f.name == Some("ValidationError"))
  {
  }

  /** Outside production the default response hands the error's own message and stack on. */
  lemma DevelopmentShowsDetails(f: Failure)
    requires !Recognised(f)
    ensures Handle(f, false).message == f.message && Handle(f, false).stack == f.stack
  {
  }

  /** `notFoundHandler(req, res)`: always 404, with a body no error response repeats. */
  function NotFound(): (r: Response)
    ensures r.status == 404 && r.stack.None?
    ensures forall f: Failure, production: bool :: Handle(f, production).error != r.error
  {
    NotFoundBody
  }
}
