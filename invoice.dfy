/** `Invoice.prototype.create` of lib/invoice.js: normalise the order date,
    validate the header and every line item against fixed rule tables, wrap the
    items as `Details`, submit the record and decode the service's answer. */
module Invoices {
  import opened Validation
  import opened Responses

  /** How a rule treats an absent field. `RequiredWhenDonated` is the
      BuyerAddress rule, whose treatment depends on `DonateMark`. */
  datatype Presence = Required | Optional | RequiredWhenDonated

  /** One validator call: field, acceptable kinds, maximum text length. */
  datatype Rule = Rule(field: string, kinds: seq<Kind>, maxLength: nat, presence: Presence)

  const TextOrNumber: seq<Kind> := [StringKind, NumberKind]
  const NumberOnly: seq<Kind> := [NumberKind]
  const TextOnly: seq<Kind> := [StringKind]

  /** The header rules, in the order `create` applies them. */
  const HeaderRules: seq<Rule> := [
    Rule("OrderId", TextOrNumber, 50, Required),
    Rule("OrderDate", TextOrNumber, 10, Required),
    Rule("BuyerIdentifier", TextOrNumber, 10, Required),
    Rule("BuyerName", TextOrNumber, 60, Required),
    Rule("BuyerAddress", TextOrNumber, 100, RequiredWhenDonated),
    Rule("BuyerPersonInCharge", TextOrNumber, 30, Optional),
    Rule("BuyerTelephoneNumber", TextOrNumber, 26, Optional),
    Rule("BuyerFacsimileNumber", TextOrNumber, 26, Optional),
    Rule("BuyerEmailAddress", TextOrNumber, 80, Required),
    Rule("BuyerCustomerNumber", TextOrNumber, 20, Optional),
    Rule("DonateMark", NumberOnly, 1, Required),
    Rule("InvoiceType", TextOnly, 2, Required),
    Rule("CarrierType", TextOrNumber, 6, Optional),
    Rule("CarrierId1", TextOrNumber, 64, Optional),
    Rule("CarrierId2", TextOrNumber, 64, Optional),
    Rule("NPOBAN", TextOrNumber, 8, Optional),
    Rule("TaxType", TextOrNumber, 1, Required),
    Rule("TaxRate", NumberOnly, 6, Optional),
    Rule("PayWay", TextOrNumber, 1, Required),
    Rule("Remark", TextOrNumber, 200, Optional)
  ]

  /** The line-item rules, in the order `create` applies them to each item. */
  const ItemRules: seq<Rule> := [
    Rule("ProductionCode", TextOrNumber, 20, Required),
    Rule("Description", TextOrNumber, 256, Required),
    Rule("Quantity", NumberOnly, 17, Required),
    Rule("Unit", TextOrNumber, 6, Optional),
    Rule("UnitPrice", NumberOnly, 17, Required)
  ]

  /** The BuyerAddress rule is the fifth header rule. */
  const BuyerAddressIndex := 4

  /** The header table has twenty rules, each with at least one kind; only
      the BuyerAddress rule depends on another field. */
  lemma HeaderTable(rules: seq<Rule>)
    requires rules == HeaderRules
    ensures |rules| == 20
    ensures forall k :: 0 <= k < |rules| ==> |rules[k].kinds| > 0
    ensures rules[BuyerAddressIndex].field == "BuyerAddress"
    ensures forall k :: 0 <= k < |rules| && k != BuyerAddressIndex ==> rules[k].presence != RequiredWhenDonated
  {
  }

  /** The item table checks five distinct fields, each with at least one
      kind, all decided by the item's own fields; quantity and unit price
      must be numbers. */
  lemma ItemTable(rules: seq<Rule>)
    requires rules == ItemRules
    ensures |rules| == 5
    ensures forall i, j :: 0 <= i < j < |rules| ==> rules[i].field != rules[j].field
    ensures forall k :: 0 <= k < |rules| ==> |rules[k].kinds| > 0 && rules[k].presence != RequiredWhenDonated
    ensures rules[2].field == "Quantity" && rules[2].kinds == [NumberKind]
    ensures rules[4].field == "UnitPrice" && rules[4].kinds == [NumberKind]
  {
  }

  /** The code calls `v.require`, which the validator does not define
      (`AsWritten`); `Intended` reads it as `v.required`. */
  datatype Reading = AsWritten | Intended

  /** Why `create` rejects its promise. */
  datatype Failure =
    | Invalid(error: FieldError)    // a validator call threw
    | RequireUndefined              // the TypeError of calling the undefined `v.require`
    | TransportError                // CreateInvoiceV3 reported an error
    | Refused(outcome: Outcome)     // the service answered something other than an invoice number

  /** How the promise `create` returns settles. */
  datatype Settlement = Resolved(number: string) | Rejected(reason: Failure)

  /** `data.DonateMark === 2`. */
  predicate DonatesToAddress(data: Record)
  {
    "DonateMark" in data && data["DonateMark"] == Num(2)
  }

  function Lift(c: Check<FieldError>): (l: Check<Failure>)
  {
    match c
    case Pass => Pass
    case Fail(e) => Fail(Invalid(e))
  }

  /** What one rule decides about a record. */
  function RuleCheck(data: Record, rule: Rule, reading: Reading): (c: Check<Failure>)
  {
    match rule.presence
    case Required => Lift(RequiredChecked(data, rule.field, rule.kinds, rule.maxLength))
    case Optional => Lift(Validated(data, rule.field, rule.kinds, rule.maxLength))
    case RequiredWhenDonated =>
      if !DonatesToAddress(data) then Lift(Validated(data, rule.field, rule.kinds, rule.maxLength))
      else if reading == AsWritten then Fail(RequireUndefined)
      else Lift(RequiredChecked(data, rule.field, rule.kinds, rule.maxLength))
  }

  /** Rules applied in order; the first failure aborts the rest. */
  function RulesCheck(data: Record, rules: seq<Rule>, reading: Reading): (c: Check<Failure>)
  {
    if rules == [] then Pass
    else match RuleCheck(data, rules[0], reading)
      case Fail(e) => Fail(e)
      case Pass => RulesCheck(data, rules[1..], reading)
  }

  /** Every item checked against the same rules (`create` uses `ItemRules`),
      item after item; the first failure aborts. */
  function ItemsCheck(items: seq<Record>, rules: seq<Rule>, reading: Reading): (c: Check<Failure>)
  {
    if items == [] then Pass
    else match RulesCheck(items[0], rules, reading)
      case Fail(e) => Fail(e)
      case Pass => ItemsCheck(items[1..], rules, reading)
  }

  /** The whole validation of `create`: the header first, then the items. */
  function RequestCheck(data: Record, items: seq<Record>, reading: Reading): (c: Check<Failure>)
  {
    match RulesCheck(data, HeaderRules, reading)
    case Fail(e) => Fail(e)
    case Pass => ItemsCheck(items, ItemRules, reading)
  }

  /** The rules pass exactly when each one does; when they fail, the error is
      that of the first failing rule, all rules before it having passed. */
  lemma {:induction false} FirstFailingRule(data: Record, rules: seq<Rule>, reading: Reading)
    ensures RulesCheck(data, rules, reading) == Pass
        <==> forall k :: 0 <= k < |rules| ==> RuleCheck(data, rules[k], reading) == Pass
    ensures RulesCheck(data, rules, reading) != Pass ==>
      exists k :: 0 <= k < |rules| && RuleCheck(data, rules[k], reading) == RulesCheck(data, rules, reading)
        && forall j :: 0 <= j < k ==> RuleCheck(data, rules[j], reading) == Pass
  {
    if rules != [] {
      FirstFailingRule(data, rules[1..], reading);
      if RuleCheck(data, rules[0], reading) == Pass && RulesCheck(data, rules, reading) != Pass {
        var k :| 0 <= k < |rules[1..]| && RuleCheck(data, rules[1..][k], reading) == RulesCheck(data, rules[1..], reading)
          && forall j :: 0 <= j < k ==> RuleCheck(data, rules[1..][j], reading) == Pass;
        assert RuleCheck(data, rules[k + 1], reading) == RulesCheck(data, rules, reading);
      }
    }
  }

  /** When rules `0 .. i-1` pass, the outcome is decided from rule `i` on. */
  lemma {:induction false} RulesCheckFrom(data: Record, rules: seq<Rule>, reading: Reading, i: nat)
    requires i < |rules|
    requires forall k :: 0 <= k < i ==> RuleCheck(data, rules[k], reading) == Pass
    ensures RuleCheck(data, rules[i], reading) != Pass ==> RulesCheck(data, rules, reading) == RuleCheck(data, rules[i], reading)
  {
    if i > 0 {
      RulesCheckFrom(data, rules[1..], reading, i - 1);
    }
  }

  /** The items pass exactly when each one passes every rule; when they
      fail, the error is that of the first failing item. */
  lemma {:induction false} FirstFailingItem(items: seq<Record>, rules: seq<Rule>, reading: Reading)
    ensures ItemsCheck(items, rules, reading) == Pass
        <==> forall k :: 0 <= k < |items| ==> RulesCheck(items[k], rules, reading) == Pass
    ensures ItemsCheck(items, rules, reading) != Pass ==>
      exists k :: 0 <= k < |items| && RulesCheck(items[k], rules, reading) == ItemsCheck(items, rules, reading)
        && forall j :: 0 <= j < k ==> RulesCheck(items[j], rules, reading) == Pass
  {
    if items != [] {
      FirstFailingItem(items[1..], rules, reading);
      if RulesCheck(items[0], rules, reading) == Pass && ItemsCheck(items, rules, reading) != Pass {
        var k :| 0 <= k < |items[1..]| && RulesCheck(items[1..][k], rules, reading) == ItemsCheck(items[1..], rules, reading)
          && forall j :: 0 <= j < k ==> RulesCheck(items[1..][j], rules, reading) == Pass;
        assert RulesCheck(items[k + 1], rules, reading) == ItemsCheck(items, rules, reading);
      }
    }
  }

  /** When items `0 .. i-1` pass, the outcome is decided from item `i` on. */
  lemma {:induction false} ItemsCheckFrom(items: seq<Record>, rules: seq<Rule>, reading: Reading, i: nat)
    requires i < |items|
    requires forall k :: 0 <= k < i ==> RulesCheck(items[k], rules, reading) == Pass
    ensures RulesCheck(items[i], rules, reading) != Pass ==> ItemsCheck(items, rules, reading) == RulesCheck(items[i], rules, reading)
  {
    if i > 0 {
      ItemsCheckFrom(items[1..], rules, reading, i - 1);
    }
  }

  /** A failing header decides the outcome whatever the items are; the items
      are looked at only once the whole header passed. */
  lemma HeaderBeforeItems(data: Record, items: seq<Record>, reading: Reading)
    ensures RulesCheck(data, HeaderRules, reading) != Pass ==> RequestCheck(data, items, reading) == RulesCheck(data, HeaderRules, reading)
    ensures RulesCheck(data, HeaderRules, reading) == Pass ==> RequestCheck(data, items, reading) == ItemsCheck(items, ItemRules, reading)
  {
  }

  /** A required header field that is absent, after every earlier rule
      passed, is reported as missing. */
  lemma MissingRequiredField(data: Record, items: seq<Record>, reading: Reading, i: nat)
    requires i < |HeaderRules| && HeaderRules[i].presence == Required
    requires HeaderRules[i].field !in data
    requires forall k :: 0 <= k < i ==> RuleCheck(data, HeaderRules[k], reading) == Pass
    ensures RequestCheck(data, items, reading) == Fail(Invalid(Missing(HeaderRules[i].field)))
  {
    RulesCheckFrom(data, HeaderRules, reading, i);
  }

  /** Unless DonateMark is the number 2, BuyerAddress is optional but, when
      present, still checked for kind and length. */
  lemma BuyerAddressOptional(data: Record, reading: Reading)
    requires !DonatesToAddress(data)
    ensures HeaderRules[BuyerAddressIndex].field == "BuyerAddress"
    ensures "BuyerAddress" !in data ==> RuleCheck(data, HeaderRules[BuyerAddressIndex], reading) == Pass
    ensures "BuyerAddress" in data ==>
      RuleCheck(data, HeaderRules[BuyerAddressIndex], reading) == Lift(Validated(data, "BuyerAddress", TextOrNumber, 100))
  {
    assert HeaderRules[BuyerAddressIndex] == Rule("BuyerAddress", TextOrNumber, 100, RequiredWhenDonated);
  }

  /** DonateMark must be a number of one character: a single digit 0 .. 9. */
  lemma DonateMarkIsOneDigit(data: Record, n: int, reading: Reading)
    requires "DonateMark" in data && data["DonateMark"] == Num(n)
    ensures HeaderRules[10].field == "DonateMark"
    ensures RuleCheck(data, HeaderRules[10], reading) == Pass <==> 0 <= n <= 9
  {
    NumberTextFitsOne(n);
    assert HasKind(NumberOnly, Num(n)) by { assert Accepts(NumberOnly[0], Num(n)); }
  }

  /** As written: once the first four header rules pass, DonateMark 2 makes
      `create` fail with the TypeError, whatever BuyerAddress holds. */
  lemma DonateMarkTwoAsWritten(data: Record, items: seq<Record>)
    requires DonatesToAddress(data)
    requires forall k :: 0 <= k < BuyerAddressIndex ==> RuleCheck(data, HeaderRules[k], AsWritten) == Pass
    ensures RequestCheck(data, items, AsWritten) == Fail(RequireUndefined)
  {
    RulesCheckFrom(data, HeaderRules, AsWritten, BuyerAddressIndex);
  }

  /** As intended: with DonateMark 2, BuyerAddress is required, and its
      absence is reported as a missing BuyerAddress. */
  lemma DonateMarkTwoIntended(data: Record, items: seq<Record>)
    requires DonatesToAddress(data)
    requires forall k :: 0 <= k < BuyerAddressIndex ==> RuleCheck(data, HeaderRules[k], Intended) == Pass
    ensures RuleCheck(data, HeaderRules[BuyerAddressIndex], Intended)
         == Lift(RequiredChecked(data, "BuyerAddress", TextOrNumber, 100))
    ensures "BuyerAddress" !in data ==> RequestCheck(data, items, Intended) == Fail(Invalid(Missing("BuyerAddress")))
  {
    RulesCheckFrom(data, HeaderRules, Intended, BuyerAddressIndex);
  }

  /** A rule passes on a present string or number of an acceptable kind whose
      text fits, unless it is the BuyerAddress rule read as written with
      DonateMark 2. */
  lemma PresentFieldPasses(data: Record, rule: Rule, reading: Reading, k: nat)
    requires rule.field in data && k < |rule.kinds| && Accepts(rule.kinds[k], data[rule.field])
    requires (data[rule.field].Str? || data[rule.field].Num?) && |Text(data[rule.field])| <= rule.maxLength
    requires rule.presence == RequiredWhenDonated && DonatesToAddress(data) ==> reading == Intended
    ensures RuleCheck(data, rule, reading) == Pass
  {
  }

  /** A rule other than the BuyerAddress rule reads only its own field: two
      records that agree on that field get the same verdict. */
  lemma RuleReadsOnlyItsField(data: Record, other: Record, rule: Rule, reading: Reading)
    requires rule.presence != RequiredWhenDonated
    requires rule.field in data <==> rule.field in other
    requires rule.field in data ==> data[rule.field] == other[rule.field]
    ensures RuleCheck(data, rule, reading) == RuleCheck(other, rule, reading)
  {
  }

  /** What the caller sees in `data.Details`: each item wrapped as
      `{ProductItem: item}`. */
  function Wrap(item: Record): (v: Value)
  {
    Obj(map["ProductItem" := Obj(item)])
  }

  function WrapAll(items: seq<Record>): (vs: seq<Value>)
    ensures |vs| == |items|
  {
    if items == [] then [] else [Wrap(items[0])] + WrapAll(items[1..])
  }

  /** The items held in a `Details` array, if each element is a wrapper. */
  function UnwrapAll(vs: seq<Value>): (items: Option<seq<Record>>)
  {
    if vs == [] then Some([])
    else if vs[0].Obj? && vs[0].props.Keys == {"ProductItem"} && vs[0].props["ProductItem"].Obj? then
      match UnwrapAll(vs[1..])
      case None => None
      case Some(rest) => Some([vs[0].props["ProductItem"].props] + rest)
    else None
  }

  /** `Details` keeps every item, in order: unwrapping gives the items back. */
  lemma {:induction false} UnwrapWrapAll(items: seq<Record>)
    ensures UnwrapAll(WrapAll(items)) == Some(items)
  {
    if items != [] {
      UnwrapWrapAll(items[1..]);
      var vs := WrapAll(items);
      assert vs[0] == Wrap(items[0]) && vs[1..] == WrapAll(items[1..]);
      assert map["ProductItem" := Obj(items[0])].Keys == {"ProductItem"};
      assert [items[0]] + items[1..] == items;
    }
  }

  lemma {:induction false} WrapAllSnoc(items: seq<Record>, item: Record)
    ensures WrapAll(items + [item]) == WrapAll(items) + [Wrap(item)]
  {
    if items != [] {
      assert (items + [item])[1..] == items[1..] + [item];
      WrapAllSnoc(items[1..], item);
    } else {
      assert items + [item] == [item];
    }
  }

  /** `items || []`. */
  function ItemList(items: Option<seq<Record>>): (list: seq<Record>)
  {
    match items
    case None => []
    case Some(list) => list
  }

  /** JavaScript truthiness of a value. */
  predicate Truthy(v: Value)
  {
    match v
    case Undefined => false
    case Null => false
    case Bool(b) => b
    case Num(n) => n != 0
    case Str(s) => s != ""
    case Arr(_) => true
    case Obj(_) => true
  }

  /** A truthy OrderDate is replaced by its `YYYY/MM/DD` text; the date
      library's formatting is the parameter `formatDate`. */
  function NormalizeOrderDate(fields: Record, formatDate: Value -> string): (r: Record)
    ensures r.Keys == fields.Keys
    ensures forall k :: k in fields && k != "OrderDate" ==> r[k] == fields[k]
    ensures "OrderDate" in fields && Truthy(fields["OrderDate"]) ==> r["OrderDate"] == Str(formatDate(fields["OrderDate"]))
    ensures "OrderDate" in fields && !Truthy(fields["OrderDate"]) ==> r == fields
  {
    if "OrderDate" in fields && Truthy(fields["OrderDate"])
    then fields["OrderDate" := Str(formatDate(fields["OrderDate"]))]
    else fields
  }

  /** What CreateInvoiceV3 receives: the record serialised as the invoice
      XML, the rental id, and the tax flag `'1'` or `'0'`. */
  datatype Request = Request(invoice: Record, rentId: Option<string>, hasTax: string)

  /** What CreateInvoiceV3 answers: the first returned string, or an error. */
  datatype Reply = Returned(ret: string) | CallFailed

  /** How the promise settles on a reply. */
  function Settle(reply: Reply): (s: Settlement)
    ensures reply == CallFailed ==> s == Rejected(TransportError)
    ensures s.Resolved? ==> reply == Returned(s.number) && |s.number| == 10
    ensures reply.Returned? && !Decode(reply.ret).Success? ==> s == Rejected(Refused(Decode(reply.ret)))
    ensures s.Rejected? && s.reason.Refused? ==> !s.reason.outcome.Success? && WellFormed(s.reason.outcome)
  {
    match reply
    case CallFailed => Rejected(TransportError)
    case Returned(ret) =>
      match Decode(ret)
      case Success(number) => Resolved(number)
      case other => Rejected(Refused(other))
  }

  /** The promise resolves exactly with a ten-character token that no
      classifier matches, and then with that token unchanged. */
  lemma SettleResolvedIff(reply: Reply, number: string)
    ensures Settle(reply) == Resolved(number)
        <==> reply == Returned(number) && |number| == 10 && Classify(number).None?
  {
    if reply.Returned? {
      SuccessIff(reply.ret);
    }
  }

  /** A stub of the service's SOAP port: it records every call and answers
      with a fixed reply. */
  class Service {
    var requests: seq<Request>
    const reply: Reply

    constructor (reply: Reply)
      ensures requests == [] && this.reply == reply
    {
      requests := [];
      this.reply := reply;
    }

    method CreateInvoiceV3(request: Request) returns (answer: Reply)
      modifies this
      ensures requests == old(requests) + [request]
      ensures answer == reply
    {
      requests := requests + [request];
      answer := reply;
    }
  }

  /** The caller's invoice record, which `create` updates in place. */
  class InvoiceData {
    var fields: Record

    constructor (fields: Record)
      ensures this.fields == fields
    {
      this.fields := fields;
    }
  }

  /** Applies one rule with the validator. Under `AsWritten` the BuyerAddress
      rule of a donated record throws, since `v.require` is undefined; under
      `Intended` it calls `required`. */
  method ApplyRule(v: Validator, rule: Rule, reading: Reading) returns (c: Check<Failure>)
    ensures c == RuleCheck(v.data, rule, reading)
  {
    var r: Check<FieldError>;
    match rule.presence {
      case Required =>
        r := v.Required(rule.field, rule.kinds, rule.maxLength);
      case Optional =>
        r := v.Validate(rule.field, rule.kinds, rule.maxLength);
      case RequiredWhenDonated =>
        if !DonatesToAddress(v.data) {
          r := v.Validate(rule.field, rule.kinds, rule.maxLength);
        } else if reading == AsWritten {
          return Fail(RequireUndefined);
        } else {
          r := v.Required(rule.field, rule.kinds, rule.maxLength);
        }
    }
    c := Lift(r);
  }

  /** Applies rules in order, stopping at the first that throws. */
  method ApplyRules(v: Validator, rules: seq<Rule>, reading: Reading) returns (c: Check<Failure>)
    ensures c == RulesCheck(v.data, rules, reading)
  {
    var i := 0;
    while i < |rules|
      invariant 0 <= i <= |rules|
      invariant forall k :: 0 <= k < i ==> RuleCheck(v.data, rules[k], reading) == Pass
    {
      c := ApplyRule(v, rules[i], reading);
      if c.Fail? {
        RulesCheckFrom(v.data, rules, reading, i);
        return;
      }
      i := i + 1;
    }
    FirstFailingRule(v.data, rules, reading);
    c := Pass;
  }

  /** `items.map(...)`: checks every item in order against `rules` (`create`
      passes `ItemRules`), stopping at the first that throws, and wraps each
      checked item for `Details`. */
  method ApplyItemRules(list: seq<Record>, rules: seq<Rule>, reading: Reading) returns (c: Check<Failure>, details: seq<Value>)
    ensures c == ItemsCheck(list, rules, reading)
    ensures c.Pass? ==> details == WrapAll(list)
  {
    details := [];
    var i := 0;
    while i < |list|
      invariant 0 <= i <= |list|
      invariant forall k :: 0 <= k < i ==> RulesCheck(list[k], rules, reading) == Pass
      invariant details == WrapAll(list[..i])
    {
      var iv := new Validator(list[i]);
      c := ApplyRules(iv, rules, reading);
      if c.Fail? {
        ItemsCheckFrom(list, rules, reading, i);
        return;
      }
      WrapAllSnoc(list[..i], list[i]);
      assert list[..i + 1] == list[..i] + [list[i]];
      details := details + [Wrap(list[i])];
      i := i + 1;
    }
    FirstFailingItem(list, rules, reading);
    assert list[..i] == list;
    c := Pass;
  }

  class Invoice {
    const rentId: Option<string>

    constructor (rentId: Option<string>)
      ensures this.rentId == rentId
    {
      this.rentId := rentId;
    }

    /** `create(data, items, hastax)`, validating as written: on a validation
        failure the record keeps only its normalised OrderDate and the
        service is not called; otherwise `Details` is set, the service is
        called once, and its reply settles the promise. */
    method Create(data: InvoiceData, items: Option<seq<Record>>, hasTax: bool,
                  service: Service, formatDate: Value -> string) returns (r: Settlement)
      modifies data, service
      ensures var fields := NormalizeOrderDate(old(data.fields), formatDate);
              var check := RequestCheck(fields, ItemList(items), AsWritten);
              if check.Fail? then
                && r == Rejected(check.error)
                && data.fields == fields
                && service.requests == old(service.requests)
              else
                && data.fields == fields["Details" := Arr(WrapAll(ItemList(items)))]
                && service.requests == old(service.requests)
                     + [Request(data.fields, rentId, if hasTax then "1" else "0")]
                && r == Settle(service.reply)
    {
      if "OrderDate" in data.fields && Truthy(data.fields["OrderDate"]) {
        data.fields := data.fields["OrderDate" := Str(formatDate(data.fields["OrderDate"]))];
      }
      var v := new Validator(data.fields);
      var c := ApplyRules(v, HeaderRules, AsWritten);
      if c.Fail? {
        return Rejected(c.error);
      }
      var details;
      c, details := ApplyItemRules(ItemList(items), ItemRules, AsWritten);
      if c.Fail? {
        return Rejected(c.error);
      }
      data.fields := data.fields["Details" := Arr(details)];
      var answer := service.CreateInvoiceV3(Request(data.fields, rentId, if hasTax then "1" else "0"));
      r := Settle(answer);
    }
  }
}
