/** The invoice of example.js run through the model: its header and line
    item pass validation, and submitted against a stub service the reply
    alone decides the outcome. */
module Scenarios {
  import opened Validation
  import opened Responses
  import opened Invoices

  /** The header of example.js, without its fractional TaxRate. */
  const ExampleHeader: Record := map[
    "Remark" := Str(""),
    "TaxType" := Num(1),
    "PayWay" := Num(2),
    "NPOBAN" := Str(""),
    "InvoiceType" := Str("05"),
    "DonateMark" := Num(0),
    "BuyerCustomerNumber" := Str("VIG01AA39090"),
    "BuyerEmailAddress" := Str("test@fakeinbox.com"),
    "BuyerFacsimileNumber" := Str("02-26511024"),
    "BuyerTelephoneNumber" := Str("0800797899"),
    "BuyerPersonInCharge" := Str("死肥周"),
    "BuyerAddress" := Str("OOXX 的地址"),
    "BuyerName" := Str("測試"),
    "BuyerIdentifier" := Str("53118823"),
    "OrderDate" := Str("2011/09/13"),
    "OrderId" := Str("A44556632")
  ]

  /** The line item of example.js. */
  const ExampleItem: Record := map[
    "ProductionCode" := Str("AAA123"),
    "Description" := Str("OOXX"),
    "Quantity" := Num(17),
    "Unit" := Str("月"),
    "UnitPrice" := Num(50000)
  ]

  /** The date formatter as it acts on the example's OrderDate, already in
      `YYYY/MM/DD` form. */
  function ExampleDate(v: Value): string { "2011/09/13" }

  /** Header rules 0 .. 3 (the order and the buyer) pass on the example header. */
  lemma HeaderPassesOrder(data: Record, reading: Reading)
    requires data == ExampleHeader
    ensures forall k :: 0 <= k < 4 ==> RuleCheck(data, HeaderRules[k], reading) == Pass
  {
    forall k | 0 <= k < 4
      ensures RuleCheck(data, HeaderRules[k], reading) == Pass
    {
      PresentFieldPasses(data, HeaderRules[k], reading, 0);
    }
  }

  /** Header rules 4 .. 7 (the buyer's address and contacts) pass on the example header. */
  lemma HeaderPassesAddress(data: Record, reading: Reading)
    requires data == ExampleHeader
    ensures forall k :: 4 <= k < 8 ==> RuleCheck(data, HeaderRules[k], reading) == Pass
  {
    forall k | 4 <= k < 8
      ensures RuleCheck(data, HeaderRules[k], reading) == Pass
    {
      PresentFieldPasses(data, HeaderRules[k], reading, 0);
    }
  }

  /** Header rules 8 .. 11 (e-mail, customer number, donation and invoice
      type) pass on the example header. */
  lemma HeaderPassesDonation(data: Record, reading: Reading)
    requires data == ExampleHeader
    ensures forall k :: 8 <= k < 12 ==> RuleCheck(data, HeaderRules[k], reading) == Pass
  {
    forall k | 8 <= k < 12
      ensures RuleCheck(data, HeaderRules[k], reading) == Pass
    {
      PresentFieldPasses(data, HeaderRules[k], reading, 0);
    }
  }

  /** Header rules 12 .. 15 (carrier and donee) pass on the example header. */
  lemma HeaderPassesCarrier(data: Record, reading: Reading)
    requires data == ExampleHeader
    ensures forall k :: 12 <= k < 16 ==> RuleCheck(data, HeaderRules[k], reading) == Pass
  {
    forall k | 12 <= k < 16
      ensures RuleCheck(data, HeaderRules[k], reading) == Pass
    {
      if k == 15 {
        PresentFieldPasses(data, HeaderRules[k], reading, 0);
      }
    }
  }

  /** Header rules 16 .. 19 (tax, payment and remark) pass on the example header. */
  lemma HeaderPassesTax(data: Record, reading: Reading)
    requires data == ExampleHeader
    ensures forall k :: 16 <= k < 20 ==> RuleCheck(data, HeaderRules[k], reading) == Pass
  {
    forall k | 16 <= k < 20
      ensures RuleCheck(data, HeaderRules[k], reading) == Pass
    {
      if k == 16 || k == 18 {
        PresentFieldPasses(data, HeaderRules[k], reading, 1);
      } else if k == 19 {
        PresentFieldPasses(data, HeaderRules[k], reading, 0);
      }
    }
  }

  /** The example header passes every header rule. */
  lemma ExampleHeaderPasses(data: Record, reading: Reading)
    requires data == ExampleHeader
    ensures RulesCheck(data, HeaderRules, reading) == Pass
  {
    HeaderPassesOrder(data, reading);
    HeaderPassesAddress(data, reading);
    HeaderPassesDonation(data, reading);
    HeaderPassesCarrier(data, reading);
    HeaderPassesTax(data, reading);
    FirstFailingRule(data, HeaderRules, reading);
  }

  /** The example line item passes every item rule. */
  lemma ExampleItemPasses(item: Record, reading: Reading)
    requires item == ExampleItem
    ensures RulesCheck(item, ItemRules, reading) == Pass
  {
    NatTextLength(50000, 5);
    forall k | 0 <= k < 5
      ensures RuleCheck(item, ItemRules[k], reading) == Pass
    {
      PresentFieldPasses(item, ItemRules[k], reading, 0);
    }
    FirstFailingRule(item, ItemRules, reading);
  }

  /** The example request, its header and its one item, passes validation. */
  lemma ExampleRequestPasses(reading: Reading)
    ensures RequestCheck(ExampleHeader, [ExampleItem], reading) == Pass
  {
    ExampleHeaderPasses(ExampleHeader, reading);
    ExampleItemPasses(ExampleItem, reading);
    FirstFailingItem([ExampleItem], ItemRules, reading);
  }

  /** The example header with DonateMark 2 (donation) still carries a valid
      BuyerAddress, yet as written `create` fails with the TypeError ... */
  lemma DonatedExampleAsWritten(data: Record, items: seq<Record>)
    requires data == ExampleHeader["DonateMark" := Num(2)]
    ensures RequestCheck(data, items, AsWritten) == Fail(RequireUndefined)
  {
    HeaderPassesOrder(ExampleHeader, AsWritten);
    forall k | 0 <= k < BuyerAddressIndex
      ensures RuleCheck(data, HeaderRules[k], AsWritten) == Pass
    {
      RuleReadsOnlyItsField(data, ExampleHeader, HeaderRules[k], AsWritten);
    }
    DonateMarkTwoAsWritten(data, items);
  }

  /** ... while as intended the BuyerAddress rule accepts it. */
  lemma DonatedExampleIntended(data: Record)
    requires data == ExampleHeader["DonateMark" := Num(2)]
    ensures RuleCheck(data, HeaderRules[BuyerAddressIndex], Intended) == Pass
  {
    PresentFieldPasses(data, HeaderRules[BuyerAddressIndex], Intended, 0);
  }

  /** A ten-digit answer settles the promise with that number. */
  lemma InvoiceNumberResolves()
    ensures Settle(Returned("1234567890")) == Resolved("1234567890")
  {
    SuccessIff("1234567890");
  }

  /** The answer S7 rejects the promise as a duplicate submission. */
  lemma DuplicateIsRefused()
    ensures Settle(Returned("S7")) == Rejected(Refused(ServiceError(AlreadyExists)))
  {
    ServiceToken(AlreadyExists);
  }

  /** Submits the example invoice against a service that answers `reply`:
      validation passes, so the service is called exactly once with the
      record and its `Details`, and the reply alone settles the promise. */
  method SubmitExample(reply: Reply) returns (r: Settlement, sent: seq<Request>)
    ensures r == Settle(reply)
    ensures sent == [Request(ExampleHeader["Details" := Arr([Wrap(ExampleItem)])], None, "0")]
  {
    var data := new InvoiceData(ExampleHeader);
    var service := new Service(reply);
    var invoice := new Invoice(None);
    ExampleRequestPasses(AsWritten);
    assert NormalizeOrderDate(ExampleHeader, ExampleDate) == ExampleHeader;
    assert WrapAll([ExampleItem]) == [Wrap(ExampleItem)];
    r := invoice.Create(data, Some([ExampleItem]), false, service, ExampleDate);
    sent := service.requests;
  }
}
