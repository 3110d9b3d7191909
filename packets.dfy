/**
 * Inbound request packets, outbound reply packets and their payloads, as the
 * Common API Base sees them.
 */
module Packets {
  import opened Wrappers

  /** A packet payload. JSON documents are opaque and compared only by equality. */
  datatype Entity =
    | Json(doc: string)
    | PathList(paths: seq<string>)
    | Change(oldValue: Option<Entity>, newValue: Option<Entity>)

  /** The `response` field of an outbound packet. */
  datatype Response = Ok | Changed | BadAction | NoPerm | NoMatch

  /**
   * An inbound packet. An absent `msgId`, `replyTo` or `src` is the empty string;
   * an absent resource, entity, content type or ifTag is `None`.
   */
  datatype Request = Request(
    resource: Option<string>,
    action: string,
    entity: Option<Entity>,
    contentType: Option<string>,
    ifTag: Option<int>,
    msgId: string,
    replyTo: string,
    src: string)

  /** An outbound packet: a reply to a request or a `changed` notification. */
  datatype Reply = Reply(
    response: Response,
    dst: string,
    resource: Option<string>,
    replyTo: string,
    entity: Option<Entity>)

  /** The reply a packet context builds for its request: addressed back to the sender. */
  function ReplyFor(req: Request, response: Response, entity: Option<Entity>): Reply
  {
    Reply(response, req.src, req.resource, req.msgId, entity)
  }
}
