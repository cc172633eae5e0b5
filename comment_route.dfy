/**
 * The comments API of src/app/api/comments/route.ts: each handler checks
 * its required fields, delegates to the comment store and maps the
 * outcome to an HTTP status and a JSON body.
 *
 * A request body is the parsed JSON, or None when `req.json()` throws.
 * Its fields are strings or absent; a field is present when it is truthy
 * (a non-empty string).
 */
module CommentsRoute {
  import opened Wrappers
  import opened CommentDb

  /** The JSON body of a response. */
  datatype Body =
    | ErrorBody(error: string)
    | SuccessBody
    | CommentsBody(comments: seq<PublicComment>)

  /** `NextResponse.json(body, { status })`; the status defaults to 200. */
  datatype Response = Response(status: int, body: Body)

  /** The fields the handlers destructure from the request body. */
  datatype RequestBody = RequestBody(
    postId: Option<string>,
    commentId: Option<string>,
    username: Option<string>,
    password: Option<string>,
    content: Option<string>)

  const MissingFields := Response(400, ErrorBody("Missing required fields"))

  predicate CreateFieldsPresent(b: RequestBody) {
    Truthy(b.postId) && Truthy(b.username) && Truthy(b.password) && Truthy(b.content)
  }

  predicate DeleteFieldsPresent(b: RequestBody) {
    Truthy(b.postId) && Truthy(b.commentId) && Truthy(b.password)
  }

  predicate UpdateFieldsPresent(b: RequestBody) {
    DeleteFieldsPresent(b) && Truthy(b.content)
  }

  /**
   * The response to a failed or successful store operation: the store's
   * own error and status pass through unchanged.
   */
  function OpResponse(r: OpResult): (resp: Response)
    ensures r.success ==> resp == Response(200, SuccessBody)
    ensures !r.success && r.error.Some? && r.status.Some? ==>
      resp == Response(r.status.value, ErrorBody(r.error.value))
  {
    if !r.success then Response(r.status.GetOr(200), ErrorBody(r.error.GetOr("")))
    else Response(200, SuccessBody)
  }

  /**
   * `GET ?postId=`: 400 without a post id, otherwise 200 with the post's
   * comments. `getComments` itself turns a failed read into [], so the 500
   * branch of the handler is never taken.
   */
  method Get(postId: Option<string>, store: CommentStore, fault: Fault) returns (resp: Response)
    requires store.Valid()
    ensures !Truthy(postId) ==> resp == Response(400, ErrorBody("Post ID is required"))
    ensures Truthy(postId) ==> resp.status == 200 && resp.body.CommentsBody?
    ensures Truthy(postId) && fault == ReadFails ==> resp.body.comments == []
    ensures Truthy(postId) && fault != ReadFails ==>
      && Ids(resp.body.comments) == store.Table(postId.value).Keys
      && |resp.body.comments| == |store.Table(postId.value)|
      && NewestFirst(resp.body.comments)
      && (forall i :: 0 <= i < |resp.body.comments| ==>
            && resp.body.comments[i].id in store.Table(postId.value)
            && resp.body.comments[i] == Public(store.Table(postId.value)[resp.body.comments[i].id]))
  {
    if !Truthy(postId) {
      return Response(400, ErrorBody("Post ID is required"));
    }
    var comments := store.GetComments(postId.value, fault);
    resp := Response(200, CommentsBody(comments));
  }

  /**
   * `POST`: creates the comment when all four fields are present; a
   * missing field is 400 and creates nothing; a thrown parse or store call
   * is 500.
   */
  method Post(body: Option<RequestBody>, store: CommentStore, id: string, now: int, fault: Fault)
    returns (resp: Response)
    requires store.Valid()
    modifies store
    ensures store.Valid()
    ensures body.None? ==>
      resp == Response(500, ErrorBody("Failed to create comment")) && store.tables == old(store.tables)
    ensures body.Some? && !CreateFieldsPresent(body.value) ==>
      resp == MissingFields && store.tables == old(store.tables)
    ensures body.Some? && CreateFieldsPresent(body.value) && fault == WriteFails ==>
      resp == Response(500, ErrorBody("Failed to create comment")) && store.tables == old(store.tables)
    ensures body.Some? && CreateFieldsPresent(body.value) && fault != WriteFails ==>
      var b := body.value;
      && resp == Response(200, SuccessBody)
      && store.Lookup(b.postId.value, id) ==
           Some(Comment(id, b.postId.value, b.username.value, store.hash(b.password.value), b.content.value, now))
      && store.tables == old(store.tables)[CommentsKey(b.postId.value) :=
           old(store.Table(b.postId.value))[id := Comment(id, b.postId.value, b.username.value,
                                                           store.hash(b.password.value), b.content.value, now)]]
  {
    if body.None? {
      return Response(500, ErrorBody("Failed to create comment"));
    }
    var b := body.value;
    if !CreateFieldsPresent(b) {
      return MissingFields;
    }
    var r := store.CreateComment(b.postId.value, b.username.value, b.password.value, b.content.value, id, now, fault);
    if r.Threw? {
      return Response(500, ErrorBody("Failed to create comment"));
    }
    resp := Response(200, SuccessBody);
  }

  /**
   * `DELETE`: with post id, comment id and password present, the store's
   * verdict decides; a rejection carries its error and status through.
   */
  method Delete(body: Option<RequestBody>, store: CommentStore, fault: Fault) returns (resp: Response)
    requires store.Valid()
    modifies store
    ensures store.Valid()
    ensures body.None? ==>
      resp == Response(500, ErrorBody("Failed to delete comment")) && store.tables == old(store.tables)
    ensures body.Some? && !DeleteFieldsPresent(body.value) ==>
      resp == MissingFields && store.tables == old(store.tables)
    ensures body.Some? && DeleteFieldsPresent(body.value) ==>
      var b := body.value;
      var v := Check(old(store.Lookup(b.postId.value, b.commentId.value)), b.password.value, store.admin, store.matches);
      && (fault == ReadFails || (fault == WriteFails && v.Verified?) ==>
            resp == Response(500, ErrorBody("Failed to delete comment")) && store.tables == old(store.tables))
      && (fault != ReadFails && v.Rejected? ==>
            resp == Response(v.status, ErrorBody(v.error)) && store.tables == old(store.tables))
      && (fault == NoFault && v.Verified? ==>
            resp == Response(200, SuccessBody) && store.tables == old(store.Without(b.postId.value, b.commentId.value)))
  {
    if body.None? {
      return Response(500, ErrorBody("Failed to delete comment"));
    }
    var b := body.value;
    if !DeleteFieldsPresent(b) {
      return MissingFields;
    }
    var r := store.DeleteComment(b.postId.value, b.commentId.value, b.password.value, fault);
    if r.Threw? {
      return Response(500, ErrorBody("Failed to delete comment"));
    }
    resp := OpResponse(r.value);
  }

  /**
   * `PUT`: like DELETE, and the new content must be present too; a
   * successful update replaces that comment's content only.
   */
  method Put(body: Option<RequestBody>, store: CommentStore, fault: Fault) returns (resp: Response)
    requires store.Valid()
    modifies store
    ensures store.Valid()
    ensures body.None? ==>
      resp == Response(500, ErrorBody("Failed to update comment")) && store.tables == old(store.tables)
    ensures body.Some? && !UpdateFieldsPresent(body.value) ==>
      resp == MissingFields && store.tables == old(store.tables)
    ensures body.Some? && UpdateFieldsPresent(body.value) ==>
      var b := body.value;
      var v := Check(old(store.Lookup(b.postId.value, b.commentId.value)), b.password.value, store.admin, store.matches);
      && (fault == ReadFails || (fault == WriteFails && v.Verified?) ==>
            resp == Response(500, ErrorBody("Failed to update comment")) && store.tables == old(store.tables))
      && (fault != ReadFails && v.Rejected? ==>
            resp == Response(v.status, ErrorBody(v.error)) && store.tables == old(store.tables))
      && (fault == NoFault && v.Verified? ==>
            && resp == Response(200, SuccessBody)
            && store.tables == old(store.tables)[CommentsKey(b.postId.value) :=
                 old(store.Table(b.postId.value))[b.commentId.value := v.comment.(content := b.content.value)]])
  {
    if body.None? {
      return Response(500, ErrorBody("Failed to update comment"));
    }
    var b := body.value;
    if !UpdateFieldsPresent(b) {
      return MissingFields;
    }
    var r := store.UpdateComment(b.postId.value, b.commentId.value, b.password.value, b.content.value, fault);
    if r.Threw? {
      return Response(500, ErrorBody("Failed to update comment"));
    }
    resp := OpResponse(r.value);
  }
}
