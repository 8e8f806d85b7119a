/**
 * The server whose store is a plain array (server.js).  A POST appends, so
 * duplicate ids are kept; a DELETE removes every entry with the id.
 */
module ArrayServer {
  import opened Wrappers
  import opened Js

  /** A response: a JSON body with its status, or the framework's own error page for an uncaught exception. */
  datatype Reply = Json(status: nat, body: Value) | DefaultErrorPage

  const SuccessBody: Value := Object(map["success" := Bool(true)])

  class MarkerStore {
    var markers: seq<Value>

    constructor ()
      ensures markers == []
    {
      markers := [];
    }

    /** GET /api/markers: the array as it stands, in insertion order. */
    method List() returns (reply: Reply)
      ensures reply == Json(200, Array(markers))
    {
      reply := Json(200, Array(markers));
    }

    /** POST /api/markers: append the body, whatever it is, and echo it. */
    method Post(body: Value) returns (reply: Reply)
      modifies this
      ensures markers == old(markers) + [body]
      ensures reply == Json(200, body)
    {
      markers := markers + [body];
      reply := Json(200, body);
    }

    /**
     * DELETE /api/markers/:id: keep the entries whose id differs.  The handler
     * has no try/catch, so an undefined or null entry (whose `id` cannot be
     * read) escapes to the framework's error page and the array is kept.
     */
    method Delete(markerId: string) returns (reply: Reply)
      modifies this
      ensures WithoutId(old(markers), Str(markerId)).None? ==>
                reply == DefaultErrorPage && markers == old(markers)
      ensures WithoutId(old(markers), Str(markerId)).Some? ==>
                reply == Json(200, SuccessBody) && markers == WithoutId(old(markers), Str(markerId)).value
    {
      match WithoutId(markers, Str(markerId))
      case None =>
        reply := DefaultErrorPage;
      case Some(rest) =>
        markers := rest;
        reply := Json(200, SuccessBody);
    }
  }
}
