/** Tag rows and the row the create-tag mutation inserts. */
module Tags {
  import opened Wrappers
  import opened Schema

  /** A row of the `tags` table. */
  datatype TagRow = TagRow(
    id: string, name: string, description: Option<string>, tagType: TagType,
    approved: bool, userId: Option<string>, companyId: Option<string>)

  /** What a caller passes to the mutation; description and type may be omitted. */
  datatype TagRequest = TagRequest(name: string, description: Option<string>, tagType: Option<TagType>)

  /** The row the mutation inserts. */
  datatype TagInsert = TagInsert(
    name: string, description: Option<string>, tagType: TagType, userId: string, approved: bool)

  /**
   * The inserted row: the type defaults to `local`, an omitted or empty description becomes
   * null, and the tag is approved only when the caller passed the type `local` itself.
   */
  function NewTagRow(userId: Option<string>, req: TagRequest): (r: Result<TagInsert>)
    ensures r.Err? <==> userId.None?
    ensures r.Err? ==> r.message == "Not authenticated"
    ensures r.Ok? ==> r.value.name == req.name && r.value.userId == userId.value
    ensures r.Ok? ==> r.value.tagType == req.tagType.GetOr(Local)
    ensures r.Ok? ==> (r.value.approved <==> req.tagType == Some(Local))
    ensures r.Ok? && req.tagType.None? ==> r.value.tagType == Local && !r.value.approved
    ensures r.Ok? ==> (r.value.description.Some? <==> req.description.Some? && req.description.value != "")
    ensures r.Ok? && r.value.description.Some? ==> r.value.description == req.description
  {
    if userId.None? then Err("Not authenticated")
    else
      Ok(TagInsert(
        req.name,
        if req.description.Some? && req.description.value != "" then req.description else None,
        req.tagType.GetOr(Local),
        userId.value,
        req.tagType == Some(Local)))
  }
}
