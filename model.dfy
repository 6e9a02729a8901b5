/** The spec model the generator consumes: the part of the parsed OpenAPI
    document that the rendering reads. */
module Model {
  import opened Wrappers

  /** An operation parameter: its name, whether it is required, and the
      `type` entry of its embedded schema, when there is one. */
  datatype Parameter = Parameter(name: string, required: bool, schemaType: Option<string>)

  /** The default response; its schema-derived name may be absent. */
  datatype Response = Response(name: Option<string>)

  /** A request body; the title of its JSON schema may be absent. */
  datatype RequestBody = RequestBody(schemaTitle: Option<string>)

  /** One API operation. `httpMethod` is the text the operation's HTTP method
      interpolates to (the name of the client's request primitive). */
  datatype Operation = Operation(
    identifier: string,
    httpMethod: string,
    path: string,
    parameters: seq<Parameter>,
    requestBody: Option<RequestBody>,
    defaultResponse: Option<Response>)

  /** A server entry: an optional display name and the base URL. */
  datatype Server = Server(name: Option<string>, url: string)

  /** The parsed document: info title and contact name, servers, operations. */
  datatype Spec = Spec(
    title: string,
    contactName: Option<string>,
    servers: seq<Server>,
    operations: seq<Operation>)
}
