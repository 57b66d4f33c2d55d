/**
 * The API-server template set (backend/templates/apiserver.go): the microservice set for the
 * same framework and data, followed by a CORS and an authentication middleware whose text
 * depends on the framework alone. Texts are abbreviated to a first line and the branch taken.
 */
module ApiServerTemplates {
  import opened TemplateTypes
  import opened CommonTemplates
  import opened MicroserviceTemplates

  function ApiServer(framework: string, d: TemplateData): seq<Template>
  {
    Microservice(framework, d) + Middleware(framework)
  }

  /** The CORS middleware takes only the framework. */
  function CorsText(framework: string): string
  {
    match WebFlavorOf(framework)
    case GinFlavor => "package middleware\nfunc CORS() gin.HandlerFunc\n"
    case EchoFlavor => "package middleware\nfunc CORS() echo.MiddlewareFunc\n"
    case NetHttpFlavor => "package middleware\nfunc CORS(next http.Handler) http.Handler\n"
  }

  /** The authentication middleware takes only the framework. */
  function AuthText(framework: string): string
  {
    match WebFlavorOf(framework)
    case GinFlavor => "package middleware\nfunc Auth() gin.HandlerFunc\n"
    case EchoFlavor => "package middleware\nfunc Auth() echo.MiddlewareFunc\n"
    case NetHttpFlavor => "package middleware\nfunc Auth(next http.Handler) http.Handler\n"
  }

  /** The two middleware files the API server adds, in order. */
  function Middleware(framework: string): seq<Template>
  {
    [ Template("internal/middleware/cors.go", CorsText(framework)),
      Template("internal/middleware/auth.go", AuthText(framework)) ]
  }

  /** Thirteen well-formed files: the microservice set for the same arguments, then cors.go and auth.go. */
  lemma ApiServerShape(framework: string, d: TemplateData)
    ensures |ApiServer(framework, d)| == 13
    ensures Microservice(framework, d) <= ApiServer(framework, d)
    ensures Common(d) <= ApiServer(framework, d)
    ensures Paths(ApiServer(framework, d))[11..] == ["internal/middleware/cors.go", "internal/middleware/auth.go"]
    ensures WellFormed(ApiServer(framework, d))
  {
    var m := Microservice(framework, d);
    var w := Middleware(framework);
    MicroserviceShape(framework, d);
    MiddlewareShape(framework);
    AppendShape(m, w);
  }

  lemma MiddlewareShape(framework: string)
    ensures Paths(Middleware(framework)) == ["internal/middleware/cors.go", "internal/middleware/auth.go"]
    ensures WellFormed(Middleware(framework))
  {
    match WebFlavorOf(framework)
    case GinFlavor =>
    case EchoFlavor =>
    case NetHttpFlavor =>
  }

  /** Each middleware getter has exactly three outcomes: gin, echo and one shared default. */
  lemma MiddlewareOutcomes(framework: string)
    ensures framework != "gin" && framework != "echo" ==>
      CorsText(framework) == CorsText("") && AuthText(framework) == AuthText("")
    ensures CorsText("gin") != CorsText("echo") && CorsText("gin") != CorsText("") && CorsText("echo") != CorsText("")
    ensures AuthText("gin") != AuthText("echo") && AuthText("gin") != AuthText("") && AuthText("echo") != AuthText("")
  {
    assert |CorsText("gin")| < |CorsText("echo")| < |CorsText("")|;
    assert |AuthText("gin")| < |AuthText("echo")| < |AuthText("")|;
  }
}
