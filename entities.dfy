/** The values the webhook pipeline passes between the dispatcher and its collaborators. */
module Entities {

  /** A URI as produced by the URI factory; only its text is modelled. */
  datatype Uri = Uri(text: string)

  /** A registered marketplace application: its code and the secret it signs webhooks with. */
  datatype Application = Application(code: string, appstoreSecret: string)

  /** A shop installation of an application. `attributes` stands for every property of the
      entity besides its application and its URI (tokens, billing state and so on). */
  datatype Shop = Shop(application: Application, uri: Uri, attributes: map<string, string>)

  /** The shop repository looks shops up by shop name and application. */
  datatype ShopKey = ShopKey(name: string, application: string)

  /** The PSR server request, reduced to its method and its parsed body. */
  datatype ServerRequest = ServerRequest(requestMethod: string, parsedBody: map<string, string>)

  /** The exceptions that can be chained as the `previous` of another one. */
  datatype Throwable =
    | NotDefinedException(parameter: string)
    | NonExistingServiceException(identifier: string)
    | OtherThrowable(description: string)
}
