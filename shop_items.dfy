/** The admin shop-item route: listing every item newest first, and creating an
    item (authorisation, required fields, a positive price, field defaults, the
    insert and one audit record). Authorisation, the database and the clock are
    parameters. */
module ShopItems {
  import opened JsValues

  /** What the admin-access check returns. */
  datatype AuthResult = Authorized(adminId: string) | Denied(error: string, status: int)

  /** The `config` payload, a JSON object. */
  datatype Config = Config(entries: map<string, string>)

  /** The parsed JSON body of a create request. */
  datatype CreateBody = CreateBody(
    name: Field<string>,
    description: Field<string>,
    image: Field<string>,
    price: Field<int>,
    usdCost: Field<int>,
    costType: Field<string>,
    config: Field<Config>,
    useRandomizedPricing: Field<bool>)

  /** A stored item; `None` stands for a stored `null`. */
  datatype ShopItem = ShopItem(
    id: string,
    name: string,
    description: string,
    image: Option<string>,
    price: int,
    usdCost: Option<int>,
    costType: string,
    config: Option<Config>,
    useRandomizedPricing: Option<bool>,
    createdAt: int)

  datatype AuditEntry = AuditEntry(
    eventType: string,
    description: string,
    targetUserId: string,
    actorUserId: string,
    itemId: string,
    itemName: string,
    price: int)

  /** An HTTP response: a JSON body, or an error status with its message. */
  datatype Response<T> = Success(body: T) | Error(status: int, message: string)

  const MissingFieldsMessage := "Name, description, and price are required"
  const NonPositivePriceMessage := "Price must be greater than 0"
  const InternalError := "Internal server error"
  const OtherEvent := "OtherEvent"

  /** A string field is truthy iff it holds a non-empty string. */
  predicate TruthyText(f: Field<string>)
  {
    f.Val? && f.value != ""
  }

  /** Why a create request is refused before anything is written, if it is. */
  function Validate(body: CreateBody): (r: Option<Response<ShopItem>>)
    ensures r.None? <==>
              TruthyText(body.name) && TruthyText(body.description) && body.price.Val? && body.price.value > 0
    ensures r.Some? ==> r.value.Error? && r.value.status == 400
    ensures r.Some? && r.value.message == NonPositivePriceMessage <==>
              TruthyText(body.name) && TruthyText(body.description) && body.price.Val? && body.price.value <= 0
  {
    if !TruthyText(body.name) || !TruthyText(body.description) || !body.price.Val? then
      Some(Error(400, MissingFieldsMessage))
    else if body.price.value <= 0 then
      Some(Error(400, NonPositivePriceMessage))
    else
      None
  }

  /** A zero price passes the required-field check and is refused by the price check. */
  lemma ZeroPriceFailsPriceCheck(name: string, description: string)
    requires name != "" && description != ""
    ensures forall body: CreateBody | body.name == Val(name) && body.description == Val(description) && body.price == Val(0) ::
              Validate(body) == Some(Error(400, NonPositivePriceMessage))
  {
  }

  /** The row a valid request stores. */
  function NewItem(body: CreateBody, id: string, now: int): (item: ShopItem)
    requires Validate(body).None?
    ensures item.id == id && item.createdAt == now
    ensures item.name == body.name.value && item.description == body.description.value
    ensures item.price == body.price.value && item.price > 0
    // truthiness defaults: an empty or missing value is replaced
    ensures item.image == if TruthyText(body.image) then Some(body.image.value) else None
    ensures item.config == if body.config.Val? then Some(body.config.value) else None
    ensures item.costType != ""
    ensures item.costType == if TruthyText(body.costType) then body.costType.value else "fixed"
    // `!== undefined` defaults: only a missing value is replaced, null and false are kept
    ensures body.usdCost.Undefined? ==> item.usdCost == Some(0)
    ensures body.usdCost.Null? ==> item.usdCost == None
    ensures body.usdCost.Val? ==> item.usdCost == Some(body.usdCost.value)
    ensures body.useRandomizedPricing.Undefined? ==> item.useRandomizedPricing == Some(true)
    ensures body.useRandomizedPricing.Null? ==> item.useRandomizedPricing == None
    ensures body.useRandomizedPricing.Val? ==> item.useRandomizedPricing == Some(body.useRandomizedPricing.value)
  {
    ShopItem(
      id := id,
      name := body.name.value,
      description := body.description.value,
      image := if TruthyText(body.image) then Some(body.image.value) else None,
      price := body.price.value,
      usdCost := match body.usdCost
        case Undefined => Some(0)
        case Null => None
        case Val(v) => Some(v),
      costType := if TruthyText(body.costType) then body.costType.value else "fixed",
      config := if body.config.Val? then Some(body.config.value) else None,
      useRandomizedPricing := match body.useRandomizedPricing
        case Undefined => Some(true)
        case Null => None
        case Val(b) => Some(b),
      createdAt := now)
  }

  /** The two kinds of default differ: an explicit `false` or `0` is kept, while an
      empty `costType` or `image` is replaced like a missing one. */
  lemma DefaultsDiffer(body: CreateBody, id: string, now: int)
    requires Validate(body).None?
    requires body.useRandomizedPricing == Val(false) && body.usdCost == Val(0)
    requires body.costType == Val("") && body.image == Val("")
    ensures NewItem(body, id, now).useRandomizedPricing == Some(false)
    ensures NewItem(body, id, now).usdCost == Some(0)
    ensures NewItem(body, id, now).costType == "fixed"
    ensures NewItem(body, id, now).image == None
  {
  }

  /** The audit record of a creation: the admin is both actor and target. */
  function CreationAudit(adminId: string, item: ShopItem): (e: AuditEntry)
    ensures e.actorUserId == adminId && e.targetUserId == adminId
    ensures e.itemId == item.id && e.itemName == item.name && e.price == item.price
  {
    AuditEntry(OtherEvent, "Admin created shop item: " + item.name, adminId, adminId, item.id, item.name, item.price)
  }

  predicate NewestFirst(s: seq<ShopItem>)
  {
    forall i, j :: 0 <= i < j < |s| ==> s[i].createdAt >= s[j].createdAt
  }

  /** Places `x` in a newest-first sequence. */
  function InsertNewestFirst(x: ShopItem, s: seq<ShopItem>): (r: seq<ShopItem>)
    requires NewestFirst(s)
    ensures NewestFirst(r)
    ensures multiset(r) == multiset(s) + multiset{x}
    ensures |r| == |s| + 1 && (r[0] == x || (s != [] && r[0] == s[0]))
  {
    if s == [] || x.createdAt >= s[0].createdAt then
      [x] + s
    else
      var rest := InsertNewestFirst(x, s[1..]);
      assert s == [s[0]] + s[1..];
      assert rest[0].createdAt <= s[0].createdAt;
      assert forall k :: 0 <= k < |rest| ==> rest[k].createdAt <= rest[0].createdAt;
      [s[0]] + rest
  }

  /** The items ordered by `createdAt`, newest first. */
  function SortNewestFirst(s: seq<ShopItem>): (r: seq<ShopItem>)
    ensures NewestFirst(r)
    ensures multiset(r) == multiset(s)
  {
    if s == [] then []
    else
      assert s == [s[0]] + s[1..];
      InsertNewestFirst(s[0], SortNewestFirst(s[1..]))
  }

  /** The shop items and the audit log. */
  class ShopCatalog {
    var items: seq<ShopItem>
    var audit: seq<AuditEntry>

    constructor ()
      ensures items == [] && audit == []
    {
      items := [];
      audit := [];
    }

    /** `GET`: refused without admin access; otherwise every item, newest first.
        `dbOk` says whether the query succeeds. */
    method List(auth: AuthResult, dbOk: bool) returns (r: Response<seq<ShopItem>>)
      ensures auth.Denied? ==> r == Error(auth.status, auth.error)
      ensures auth.Authorized? && !dbOk ==> r == Error(500, InternalError)
      ensures auth.Authorized? && dbOk ==>
                r.Success? && NewestFirst(r.body) && multiset(r.body) == multiset(items)
    {
      if auth.Denied? {
        return Error(auth.status, auth.error);
      }
      if !dbOk {
        return Error(500, InternalError);
      }
      return Success(SortNewestFirst(items));
    }

    /** `POST`. `body` is `None` when the request body is not JSON; `id` and
        `now` are the id and creation time the database assigns; `dbOk` says
        whether the insert succeeds. */
    method Create(auth: AuthResult, body: Option<CreateBody>, id: string, now: int, dbOk: bool)
      returns (r: Response<ShopItem>)
      modifies this
      ensures auth.Denied? ==> r == Error(auth.status, auth.error)
      ensures auth.Authorized? && body.None? ==> r == Error(500, InternalError)
      ensures auth.Authorized? && body.Some? && Validate(body.value).Some? ==> r == Validate(body.value).value
      ensures auth.Authorized? && body.Some? && Validate(body.value).None? && !dbOk ==> r == Error(500, InternalError)
      ensures auth.Authorized? && body.Some? && Validate(body.value).None? && dbOk ==>
                r == Success(NewItem(body.value, id, now))
      // exactly one item and one audit record on success, nothing otherwise
      ensures r.Success? ==>
                && auth.Authorized? && body.Some? && Validate(body.value).None?
                && r.body == NewItem(body.value, id, now)
                && items == old(items) + [r.body]
                && audit == old(audit) + [CreationAudit(auth.adminId, r.body)]
      ensures r.Error? ==> items == old(items) && audit == old(audit)
    {
      if auth.Denied? {
        return Error(auth.status, auth.error);
      }
      if body.None? {
        return Error(500, InternalError);
      }
      var rejection := Validate(body.value);
      if rejection.Some? {
        return rejection.value;
      }
      if !dbOk {
        return Error(500, InternalError);
      }
      var item := NewItem(body.value, id, now);
      items := items + [item];
      audit := audit + [CreationAudit(auth.adminId, item)];
      return Success(item);
    }
  }
}
