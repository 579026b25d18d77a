/** The order request models and the payloads the order methods build from
    them. */
module OrderRequests {
  import opened Text
  import opened JsonData
  import opened Schema

  datatype CreateOrder = CreateOrder(serviceId: int, quantity: real, customId: string, data: Option<string>)
  datatype PayOrder = PayOrder(customId: string)

  /** `CreateOrder(service_id=..., quantity=..., custom_id=..., data=...)` */
  function CreateOrderSchema(o: CreateOrder): (r: Checked<CreateOrder>)
    ensures r.Valid? <==>
      && o.serviceId > 0
      && o.quantity > 0.0
      && 1 <= |o.customId| <= 255
      && (o.data.None? || |o.data.value| <= 1000)
    ensures r.Valid? ==> r.value == o
    ensures r.Invalid? && o.serviceId <= 0 ==> "service_id" in r.fields
    ensures r.Invalid? && o.serviceId > 0 ==> "service_id" !in r.fields
  {
    var checks := [Check("service_id", o.serviceId > 0),
                   Check("quantity", o.quantity > 0.0),
                   Check("custom_id", LengthWithin(o.customId, 1, 255)),
                   Check("data", o.data.None? || |o.data.value| <= 1000)];
    assert checks[0] == Check("service_id", o.serviceId > 0) && checks[1].ok == (o.quantity > 0.0);
    assert checks[2].ok == LengthWithin(o.customId, 1, 255) && checks[3].ok == (o.data.None? || |o.data.value| <= 1000);
    assert forall i :: 1 <= i < |checks| ==> checks[i].field != "service_id";
    Construct(checks, o)
  }

  /** `PayOrder(custom_id=...)` */
  function PayOrderSchema(customId: string): (r: Checked<PayOrder>)
    ensures r.Valid? <==> 1 <= |customId| <= 255
    ensures r.Valid? ==> r.value == PayOrder(customId)
    ensures r.Invalid? ==> r.fields == ["custom_id"]
  {
    var checks := [Check("custom_id", LengthWithin(customId, 1, 255))];
    assert checks[0].ok == LengthWithin(customId, 1, 255);
    assert Failing(checks) == (if checks[0].ok then [] else ["custom_id"]) + Failing([]);
    Construct(checks, PayOrder(customId))
  }

  /** `model_dump(exclude_none=True)`: `data` is left out when it is None. */
  function CreateOrderPayload(o: CreateOrder): (m: Object)
    ensures "data" in m <==> o.data.Some?
    ensures m.Keys - {"data"} == {"service_id", "quantity", "custom_id"}
  {
    var base := map["service_id" := JInt(o.serviceId), "quantity" := JFloat(o.quantity), "custom_id" := JStr(o.customId)];
    if o.data.Some? then base["data" := JStr(o.data.value)] else base
  }

  function ParseCreateOrder(m: Object): Option<CreateOrder> {
    if "service_id" in m && "quantity" in m && "custom_id" in m
       && m["service_id"].JInt? && m["quantity"].JFloat? && m["custom_id"].JStr?
       && ("data" in m ==> m["data"].JStr?) then
      Some(CreateOrder(m["service_id"].i, m["quantity"].r, m["custom_id"].s,
                       if "data" in m then Some(m["data"].s) else None))
    else None
  }

  lemma CreateOrderPayloadRoundTrip(o: CreateOrder)
    ensures ParseCreateOrder(CreateOrderPayload(o)) == Some(o)
  {
  }

  /** `pay_order` and `get_order_info` both send `{"custom_id": id}`. */
  function PayOrderPayload(p: PayOrder): (m: Object)
    ensures m.Keys == {"custom_id"} && m["custom_id"] == JStr(p.customId)
  {
    map["custom_id" := JStr(p.customId)]
  }

  /** The order id `create_order` uses: the caller's, or the generated one
      when the caller's is None or empty. */
  function ChosenId(customId: Option<string>, generated: string): string {
    if Truthy(customId) then customId.value else generated
  }

  /** `create_order(service_id, quantity, custom_id, data)` up to the
      request: the id is filled in from a freshly generated UUID string
      (36 characters) when missing, then the model is validated and dumped. */
  function CreateOrderRequest(serviceId: int, quantity: real, customId: Option<string>, data: Option<string>,
                              generatedUuid: string): (r: Checked<Object>)
    requires |generatedUuid| == 36
    ensures r.Valid? <==> serviceId > 0 && quantity > 0.0
                          && (!Truthy(customId) || |customId.value| <= 255)
                          && (data.None? || |data.value| <= 1000)
    ensures r.Valid? ==> r.value == CreateOrderPayload(CreateOrder(serviceId, quantity, ChosenId(customId, generatedUuid), data))
    ensures r.Invalid? ==> "custom_id" in r.fields ==> Truthy(customId)
  {
    var o := CreateOrder(serviceId, quantity, ChosenId(customId, generatedUuid), data);
    match CreateOrderSchema(o)
    case Valid(v) => Valid(CreateOrderPayload(v))
    case Invalid(fields) =>
      if "custom_id" in fields then InvalidIdMeansCallersId(o, customId, generatedUuid); Invalid(fields)
      else Invalid(fields)
  }

  /** A generated id is always within the id's bounds, so only a caller's
      id can make `custom_id` fail. */
  lemma InvalidIdMeansCallersId(o: CreateOrder, customId: Option<string>, generatedUuid: string)
    requires |generatedUuid| == 36 && o.customId == ChosenId(customId, generatedUuid)
    requires CreateOrderSchema(o).Invalid? && "custom_id" in CreateOrderSchema(o).fields
    ensures Truthy(customId)
  {
    var checks := [Check("service_id", o.serviceId > 0),
                   Check("quantity", o.quantity > 0.0),
                   Check("custom_id", LengthWithin(o.customId, 1, 255)),
                   Check("data", o.data.None? || |o.data.value| <= 1000)];
    assert CreateOrderSchema(o) == Construct(checks, o);
    var i :| 0 <= i < |checks| && checks[i].field == "custom_id" && !checks[i].ok;
    assert i == 2;
  }
}

/** The service request model. */
module ServiceRequests {
  import opened Text
  import opened JsonData
  import opened Schema

  datatype CategoryRequest = CategoryRequest(categoryId: int)

  /** `CategoryRequest(category_id=...)`: the id is required and positive. */
  function CategorySchema(categoryId: int): (r: Checked<CategoryRequest>)
    ensures r.Valid? <==> categoryId > 0
    ensures r.Valid? ==> r.value.categoryId == categoryId
    ensures r.Invalid? ==> r.fields == ["category_id"]
  {
    var checks := [Check("category_id", categoryId > 0)];
    assert checks[0].ok == (categoryId > 0);
    assert Failing(checks) == (if checks[0].ok then [] else ["category_id"]) + Failing([]);
    Construct(checks, CategoryRequest(categoryId))
  }

  /** `get_services_by_category` sends exactly `{"category_id": id}`. */
  function CategoryPayload(c: CategoryRequest): (m: Object)
    ensures m.Keys == {"category_id"} && m["category_id"] == JInt(c.categoryId)
  {
    map["category_id" := JInt(c.categoryId)]
  }

  /** Zero and negative ids are rejected. */
  lemma NonPositiveRejected(categoryId: int)
    requires categoryId <= 0
    ensures CategorySchema(categoryId) == Invalid(["category_id"])
  {
  }
}
