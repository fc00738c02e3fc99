/**
 * DCMM_REST (includes/class-rest.php): the three route callbacks. get_subscribers normalises the
 * query parameters into the params get_subscribers of the query layer receives; post_bulk reads the
 * JSON body, rejects malformed requests in a fixed order, and runs one chunk; get_meta returns the
 * catalogues and the detected NPA field.
 */
module Rest {
  import opened Common
  import opened Helpers
  import opened Store
  import Queries
  import Bulk

  // ---------------------------------------------------------------- request values

  /** `$body[key]` on the decoded JSON body: a missing key reads as null. */
  function Param(m: map<string, Raw>, key: string): (r: Raw)
    ensures key !in m ==> r == RNull
    ensures key in m ==> r == m[key]
  {
    if key in m then m[key] else RNull
  }

  /** PHP's `value ?? default`. */
  function Coalesce(r: Raw, default: Raw): (v: Raw)
    ensures r.RNull? ==> v == default
    ensures !r.RNull? ==> v == r
  {
    if r.RNull? then default else r
  }

  /** PHP's `value ?: default`. */
  function Elvis(r: Raw, default: Raw): (v: Raw)
    ensures Truthy(r) ==> v == r
    ensures !Truthy(r) ==> v == default
  {
    if Truthy(r) then r else default
  }

  /**
   * sanitize_text_field: arrays become "", anything else its PHP string form, which then goes through
   * the function's tag stripping and whitespace clean-up, given here as `clean`.
   */
  function SanitizeText(r: Raw, clean: string -> string): string
  {
    match r
    case RArray(_) => ""
    case RNull => clean("")
    case RBool(b) => clean(if b then "1" else "")
    case RInt(i) => clean(IntToString(i))
    case RStr(s) => clean(s)
  }

  // ---------------------------------------------------------------- GET /subscribers

  /** The mode parameter is "all" only when it is exactly the string "all". */
  function Mode(r: Raw): (m: string)
    ensures m == "all" || m == "any"
    ensures m == "all" <==> r == RStr("all")
  {
    if r == RStr("all") then "all" else "any"
  }

  /** `absint(page ?: 1)`. */
  function PageNumber(r: Raw): nat
  {
    AbsInt(Elvis(r, RInt(1)))
  }

  /** `min(absint(per_page ?: 25), 200)`. */
  function PerPage(r: Raw): (n: nat)
    ensures n <= 200
  {
    Min(AbsInt(Elvis(r, RInt(25))), 200)
  }

  /**
   * The params array get_subscribers builds from `$request->get_param`, which reads null for a name
   * the request does not carry; npa_field_id is never among them.
   */
  function QueryParams(getParam: string -> Raw, clean: string -> string): Queries.Params
  {
    Queries.Params(
      page := PageNumber(getParam("page")),
      perPage := PerPage(getParam("per_page")),
      search := TextParam(getParam, "search", clean),
      status := TextParam(getParam, "status", clean),
      tags := IdsParam(getParam, "tags"),
      tagsMode := Mode(getParam("tags_mode")),
      lists := IdsParam(getParam, "lists"),
      listsMode := Mode(getParam("lists_mode")),
      npa := TextParam(getParam, "npa", clean),
      npaMin := TextParam(getParam, "npa_min", clean),
      npaMax := TextParam(getParam, "npa_max", clean),
      sort := ValidateSort(SanitizeText(Coalesce(getParam("sort"), RStr("created_at")), clean)),
      order := ValidateOrder(SanitizeText(Coalesce(getParam("order"), RStr("desc")), clean)),
      npaFieldId := None)
  }

  /** `sanitize_text_field( $request->get_param( name ) ?? '' )`. */
  function TextParam(getParam: string -> Raw, name: string, clean: string -> string): string
  {
    SanitizeText(Coalesce(getParam(name), RStr("")), clean)
  }

  /** `dcmm_sanitize_int_array( $request->get_param( name ) ?? [] )`. */
  function IdsParam(getParam: string -> Raw, name: string): (ids: seq<int>)
    ensures forall i :: 0 <= i < |ids| ==> ids[i] > 0
  {
    SanitizeIntArray(Coalesce(getParam(name), RArray([])))
  }

  /** Whatever the request carries, the params are normalised: page and per_page in range, known modes, positive ids, an allowed sort and direction. */
  lemma QueryParamsNormalised(getParam: string -> Raw, clean: string -> string)
    ensures var p := QueryParams(getParam, clean);
            && p.page >= 0 && 0 <= p.perPage <= 200
            && p.tagsMode in ["all", "any"] && p.listsMode in ["all", "any"]
            && (forall i :: 0 <= i < |p.tags| ==> p.tags[i] > 0)
            && (forall i :: 0 <= i < |p.lists| ==> p.lists[i] > 0)
            && p.sort in AllowedSorts
            && (p.order == "ASC" || p.order == "DESC")
            && p.npaFieldId.None?
  {
  }

  /** The route schema's integer type: a page or per_page that is absent, null or an integer. */
  predicate SchemaInteger(r: Raw) { r.RNull? || r.RInt? }

  /** With integer-typed page and per_page, the page is at least 1, per_page lies in 1..200, and the offset is not negative. */
  lemma TypedPagingInRange(page: Raw, perPage: Raw)
    requires SchemaInteger(page) && SchemaInteger(perPage)
    ensures PageNumber(page) >= 1 && 1 <= PerPage(perPage) <= 200
    ensures (PageNumber(page) - 1) * PerPage(perPage) >= 0
    ensures page != RNull && page != RInt(0) ==> PageNumber(page) == AbsInt(page)
    ensures perPage != RNull && perPage != RInt(0) ==> PerPage(perPage) == Min(AbsInt(perPage), 200)
  {
    assert Truthy(page) <==> page.RInt? && page.i != 0;
    assert Truthy(perPage) <==> perPage.RInt? && perPage.i != 0;
    var a: nat := PageNumber(page) - 1;
    var b: nat := PerPage(perPage);
    NonNegativeProduct(a, b);
  }

  lemma NonNegativeProduct(a: nat, b: nat)
    ensures a * b >= 0
  {
  }

  /** An empty query string gives page 1, 25 per page, no filters, mode "any", newest first. */
  lemma QueryDefaults(clean: string -> string)
    requires clean("") == "" && clean("created_at") == "created_at" && clean("desc") == "desc"
    ensures QueryParams(_ => RNull, clean) ==
            Queries.Params(1, 25, "", "", [], "any", [], "any", "", "", "", "created_at", "DESC", None)
  {
    assert Lower("desc") != "asc" by { assert Lower("desc")[0] == 'd'; }
  }

  /** The params never name an NPA field, so the query layer always detects the same field get_meta reports. */
  lemma QueryFieldIsMetaField(t: Tables, getParam: string -> Raw, clean: string -> string)
    ensures Queries.ResolveNpaField(QueryParams(getParam, clean), t.customFields) == GetMeta(t).npaFieldId
  {
  }

  /** get_subscribers' response: status 200 with the query layer's items and total for the normalised params. */
  method GetSubscribersRoute(t: Tables, getParam: string -> Raw, clean: string -> string,
                             engineOrder: (Queries.SortKey, string) -> seq<int>, cast: string -> int)
    returns (status: int, items: seq<Queries.Item>, total: int)
    ensures status == 200
    ensures var p := QueryParams(getParam, clean);
            var field := Queries.DetectNpaFieldId(t.customFields);
            total == |Queries.MatchingIds(t, p, field, cast)| &&
            items == Queries.PageOf(t, p, field, engineOrder(Queries.OrderKey(p, field), p.order), cast)
  {
    items, total := Queries.GetSubscribers(t, QueryParams(getParam, clean), engineOrder, cast);
    status := 200;
  }

  // ---------------------------------------------------------------- POST /bulk

  const MaxIds := 5000
  const MaxChunk := 500
  const AllowedActions: seq<string> := ["add_tag", "remove_tag", "add_list", "remove_list", "unsubscribe", "export_csv"]

  const NoIds := "No subscriber IDs provided."
  const TooManyIds := "Maximum 5000 IDs per request."
  const InvalidAction := "Invalid action."

  datatype BulkRequest = BulkRequest(action: string, ids: seq<int>, tagIds: seq<int>, listIds: seq<int>,
                                     offset: nat, chunk: nat)

  /** The values post_bulk reads from the JSON body. */
  function ReadBulk(body: map<string, Raw>, clean: string -> string): (req: BulkRequest)
    ensures req.chunk <= MaxChunk
    ensures Param(body, "chunk").RNull? ==> req.chunk == MaxChunk
    ensures Param(body, "chunk") == RInt(0) ==> req.chunk == 0
    ensures Param(body, "offset").RNull? ==> req.offset == 0
    ensures forall i :: 0 <= i < |req.ids| ==> req.ids[i] > 0
  {
    BulkRequest(
      action := SanitizeText(Coalesce(Param(body, "action"), RStr("")), clean),
      ids := SanitizeIntArray(Coalesce(Param(body, "ids"), RArray([]))),
      tagIds := SanitizeIntArray(Coalesce(Param(body, "tag_ids"), RArray([]))),
      listIds := SanitizeIntArray(Coalesce(Param(body, "list_ids"), RArray([]))),
      offset := AbsInt(Coalesce(Param(body, "offset"), RInt(0))),
      chunk := Min(AbsInt(Coalesce(Param(body, "chunk"), RInt(MaxChunk))), MaxChunk))
  }

  /** The first failed check, in the order post_bulk makes them, or None when the request is accepted. */
  function Rejection(req: BulkRequest): (m: Option<string>)
    ensures m == Some(NoIds) <==> req.ids == []
    ensures m == Some(TooManyIds) <==> req.ids != [] && |req.ids| > MaxIds
    ensures m == Some(InvalidAction) <==> 0 < |req.ids| <= MaxIds && req.action !in AllowedActions
    ensures m.None? <==> 0 < |req.ids| <= MaxIds && req.action in AllowedActions
  {
    if req.ids == [] then Some(NoIds)
    else if |req.ids| > MaxIds then Some(TooManyIds)
    else if req.action !in AllowedActions then Some(InvalidAction)
    else None
  }

  /** The body of the bulk response: a rejection, or the response of execute passed through. */
  datatype BulkReply = Rejected(message: string) | Executed(response: Bulk.BulkResponse)

  datatype HttpReply = HttpReply(status: int, reply: BulkReply)

  function PostBulkReply(req: BulkRequest, env: Bulk.ExportEnv): (r: HttpReply)
    ensures r.status == 400 <==> Rejection(req).Some?
    ensures r.status == 400 ==> r.reply == Rejected(Rejection(req).value)
    ensures r.status != 400 ==>
              r.reply == Executed(Bulk.ExecuteResponse(req.action, req.ids, req.tagIds, req.listIds, req.offset, req.chunk, env))
    ensures r.status == 200 <==> r.reply.Executed? && r.reply.response.Progress?
    ensures r.status == 500 <==> r.reply.Executed? && r.reply.response.Failure?
  {
    match Rejection(req)
    case Some(m) => HttpReply(400, Rejected(m))
    case None =>
      var result := Bulk.ExecuteResponse(req.action, req.ids, req.tagIds, req.listIds, req.offset, req.chunk, env);
      HttpReply(if result.Progress? then 200 else 500, Executed(result))
  }

  /** post_bulk: read the body, reject before touching any table, otherwise execute one chunk. */
  method PostBulk(db: Database, body: map<string, Raw>, clean: string -> string, env: Bulk.ExportEnv)
    returns (r: HttpReply, file: seq<seq<string>>)
    modifies db
    ensures var req := ReadBulk(body, clean);
            r == PostBulkReply(req, env) &&
            (Rejection(req).Some? ==> db.tables == old(db.tables) && file == []) &&
            (Rejection(req).None? ==>
               db.tables == Bulk.ExecuteEffect(old(db.tables), req.action, Window(req.ids, req.chunk, req.offset),
                                               req.tagIds, req.listIds) &&
               file == Bulk.ExecuteFile(old(db.tables), req.action, req.ids, req.offset, req.chunk, env))
  {
    var req := ReadBulk(body, clean);
    var rejection := Rejection(req);
    if rejection.Some? {
      return HttpReply(400, Rejected(rejection.value)), [];
    }
    var result;
    result, file := Bulk.Execute(db, req.action, req.ids, req.tagIds, req.listIds, req.offset, req.chunk, env);
    r := HttpReply(if result.Progress? then 200 else 500, Executed(result));
  }

  /** An accepted request never reaches execute's "Unknown action." branch. */
  lemma AcceptedActionIsKnown(req: BulkRequest, env: Bulk.ExportEnv)
    requires Rejection(req).None?
    ensures PostBulkReply(req, env).reply != Executed(Bulk.Failure(Bulk.UnknownAction))
  {
  }

  /** The chunk the server runs is never larger than 500 ids, whatever the body asks for. */
  lemma ChunkNeverExceedsCap(body: map<string, Raw>, clean: string -> string)
    ensures var req := ReadBulk(body, clean);
            |Window(req.ids, req.chunk, req.offset)| <= MaxChunk
  {
  }

  // ---------------------------------------------------------------- GET /meta

  /** The meta response: exactly these four keys. */
  datatype Meta = Meta(tags: seq<Named>, lists: seq<Named>, customFields: seq<CustomField>, npaFieldId: Option<int>)

  /**
   * get_meta. The catalogues come back in table order here; the name ordering the SQL asks for is the
   * engine's and is not modelled.
   */
  function GetMeta(t: Tables): (m: Meta)
    ensures m.npaFieldId.Some? <==> exists i :: 0 <= i < |t.customFields| && Lower(t.customFields[i].name) == "npa"
    ensures m.npaFieldId.Some? ==> exists f :: f in t.customFields && f.id == m.npaFieldId.value && Lower(f.name) == "npa"
  {
    Meta(t.tags, t.segments, t.customFields, Queries.DetectNpaFieldId(t.customFields))
  }
}
