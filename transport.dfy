/**
 The transport adapter, with the network taken out. A request names the
 resource it asks for and carries the body of a POST; a reply is the
 parsed response, an HTTP error status with its parsed body, or a
 lower-level failure. What the client decides from a reply is modelled
 here: a GET surfaces every HTTP error, a POST reads the body of a 201
 that arrives as an error, and each one first checks its configuration.
 */
module Transport {
  import opened Wrappers
  import opened Errors
  import opened Xml
  import opened Values

  datatype Endpoint =
    | ProjectList                              // projects.xml
    | TicketPage(project: int, page: Value)    // projects/<id>/tickets.xml?page=<page>
    | TicketList(project: int)                 // projects/<id>/tickets.xml
    | SingleTicket(project: int, number: int)  // projects/<id>/tickets/<number>.xml
    | ProjectMemberships(project: int)         // projects/<id>/memberships.xml
    | TokenLookup(token: string)               // tokens/<token>.xml

  datatype Request = Get(endpoint: Endpoint) | Post(endpoint: Endpoint, body: string)

  /** A response body: an XML tree, or text the XML parser rejects. */
  datatype Doc = Parsed(tree: Node) | Malformed

  datatype Reply = Response(doc: Doc) | HttpError(code: int, doc: Doc) | Unreachable

  function ReadDoc(d: Doc): (r: Result<Node>)
    ensures r.Failure? <==> d.Malformed?
  {
    match d
    case Parsed(t) => Success(t)
    case Malformed => Failure(MalformedXml)
  }

  /** `_get_data` needs the base URL. */
  function GetCheck(url: Option<string>): (r: Outcome)
    ensures r.Fail? <==> url.None?
    ensures r.Fail? ==> r.error == UrlNotSet
  {
    if url.None? then Fail(UrlNotSet) else Pass
  }

  /** `_post_data` needs the base URL, then the token, and fails with a distinct error for each. */
  function PostCheck(url: Option<string>, token: Option<string>): (r: Outcome)
    ensures r.Pass? <==> url.Some? && token.Some?
    ensures url.None? ==> r == Fail(UrlNotSet)
    ensures url.Some? && token.None? ==> r == Fail(TokenNotSet)
  {
    if url.None? then Fail(UrlNotSet)
    else if token.None? then Fail(TokenNotSet)
    else Pass
  }

  /** What `_get_data` makes of a reply: every HTTP error propagates. */
  function GetReply(reply: Reply): Result<Node> {
    match reply
    case Response(d) => ReadDoc(d)
    case HttpError(code, _) => Failure(HttpFailure(code))
    case Unreachable => Failure(ConnectionFailed)
  }

  /** What `_post_data` makes of a reply: status 201 reported as an error is a success. */
  function PostReply(reply: Reply): Result<Node> {
    match reply
    case Response(d) => ReadDoc(d)
    case HttpError(code, d) => if code == 201 then ReadDoc(d) else Failure(HttpFailure(code))
    case Unreachable => Failure(ConnectionFailed)
  }

  /**
   A POST reads a reply exactly as a GET does, except for an error
   status of 201, whose body it reads as a normal response; a GET with
   the same reply fails.
   */
  lemma PostIsGetExceptCreated(reply: Reply)
    ensures reply.HttpError? && reply.code == 201 ==>
      PostReply(reply) == PostReply(Response(reply.doc)) && GetReply(reply) == Failure(HttpFailure(201))
    ensures !(reply.HttpError? && reply.code == 201) ==> PostReply(reply) == GetReply(reply)
  {
  }

  const BodyOpen := "<ticket>\n    <body>"
  const TitleOpen := "</body>\n    <title>"
  const TicketClose := "</title>\n</ticket>"

  /** The ticket creation document, with body and title substituted verbatim. */
  function CreationXml(body: string, title: string): string {
    BodyOpen + body + TitleOpen + title + TicketClose
  }

  /**
   Nothing is escaped: the body and the title can be read back unchanged
   from their fixed positions in the document, whatever they contain.
   */
  lemma CreationXmlVerbatim(body: string, title: string)
    ensures var x := CreationXml(body, title);
      && |x| == |BodyOpen| + |body| + |TitleOpen| + |title| + |TicketClose|
      && x[..|BodyOpen|] == BodyOpen
      && x[|BodyOpen|..|BodyOpen| + |body|] == body
      && x[|BodyOpen| + |body|..|BodyOpen| + |body| + |TitleOpen|] == TitleOpen
      && x[|BodyOpen| + |body| + |TitleOpen|..|x| - |TicketClose|] == title
      && x[|x| - |TicketClose|..] == TicketClose
  {
  }

  /** `'%s' % v` for the optional strings the client formats: None prints as 'None'. */
  function Text(v: Option<string>): (s: string)
    ensures v.Some? ==> s == v.value
  {
    if v.Some? then v.value else "None"
  }
}
