/** The decoder for the single string that CreateInvoiceV3 returns
    (lib/invoice.js:114-143 and the sixteen classifiers at 155-261): either a
    ten-character invoice number or one of the service's error tokens. */
module Responses {
  import opened Validation

  datatype Option<+T> = None | Some(value: T)

  /** The line-item field that a `D<k>_<n>` token blames, k = 0 .. 4. */
  datatype ItemField = ProductNumber | ProductName | Quantity | UnitPrice | Unit

  /** The service errors `S1` .. `S7`, in that order. */
  datatype ServiceKind =
    | DatabaseError
    | StrangeDate
    | DateRange
    | CanNotGetInvoiceNumber
    | NoInvoiceNumber
    | OutOfLimit
    | AlreadyExists

  /** What a response means. `ItemError.index` is the digit string exactly as
      the service sent it: the client never converts it to a number. */
  datatype Outcome =
    | FieldEmpty(name: string)
    | XmlFormat
    | NoDetail
    | ItemError(field: ItemField, index: string)
    | ServiceError(kind: ServiceKind)
    | IpBlocked
    | Unknown(raw: string)
    | Success(number: string)

  /** The digit k of the `D<k>_` prefix that names each item field. */
  function ItemDigit(f: ItemField): (c: char)
    ensures '0' <= c <= '4'
  {
    match f
    case ProductNumber => '0'
    case ProductName => '1'
    case Quantity => '2'
    case UnitPrice => '3'
    case Unit => '4'
  }

  /** The token the service sends for each service error. */
  function ServiceCode(k: ServiceKind): (code: string)
    ensures |code| == 2 && code[0] == 'S' && '1' <= code[1] <= '7'
  {
    match k
    case DatabaseError => "S1"
    case StrangeDate => "S2"
    case DateRange => "S3"
    case CanNotGetInvoiceNumber => "S4"
    case NoInvoiceNumber => "S5"
    case OutOfLimit => "S6"
    case AlreadyExists => "S7"
  }

  /** The characters that a regular expression's `.` does not match. */
  predicate IsLineTerminator(c: char)
  {
    c == '\n' || c == '\r' || c == '\U{2028}' || c == '\U{2029}'
  }

  predicate InLine(c: char) { !IsLineTerminator(c) }

  /** The longest prefix of `s` made of characters that satisfy `p`: what a
      greedy `p+` (or `p*`) captures at the start of `s`. */
  function LeadingRun(s: string, p: char -> bool): (r: string)
    ensures r <= s
    ensures forall i :: 0 <= i < |r| ==> p(r[i])
    ensures |r| < |s| ==> !p(s[|r|])
  {
    if s == [] || !p(s[0]) then [] else [s[0]] + LeadingRun(s[1..], p)
  }

  /** The maximal run is determined by the three properties above. */
  lemma {:induction false} LeadingRunUnique(s: string, p: char -> bool, r: string)
    requires r <= s
    requires forall i :: 0 <= i < |r| ==> p(r[i])
    requires |r| < |s| ==> !p(s[|r|])
    ensures LeadingRun(s, p) == r
  {
  }

  /** An outcome that a classifier can report: neither a success nor an unknown
      token, with a non-empty field name free of line terminators, and a
      non-empty all-digit item index. */
  predicate IsError(o: Outcome)
  {
    && !o.Success? && !o.Unknown?
    && (o.FieldEmpty? ==> |o.name| > 0 && forall i :: 0 <= i < |o.name| ==> InLine(o.name[i]))
    && (o.ItemError? ==> |o.index| > 0 && forall i :: 0 <= i < |o.index| ==> IsDigitChar(o.index[i]))
  }

  /** `^M:(.+)`: a field was left empty; the capture runs to the first line
      terminator. */
  function EmptyOrFormatError(ret: string): (r: Option<Outcome>)
    ensures r.Some? ==> |ret| >= 3 && ret[0] == 'M' && ret[1] == ':' && r.value.FieldEmpty? && IsError(r.value)
  {
    if |ret| >= 2 && ret[..2] == "M:" && |LeadingRun(ret[2..], InLine)| > 0
    then Some(FieldEmpty(LeadingRun(ret[2..], InLine)))
    else None
  }

  /** `^M[01]$`: the request's XML was malformed. */
  function XmlFormatError(ret: string): (r: Option<Outcome>)
    ensures r.Some? ==> |ret| == 2 && ret[0] == 'M' && r.value == XmlFormat
  {
    if ret == "M0" || ret == "M1" then Some(XmlFormat) else None
  }

  /** `'D0'`: the request had no line items. */
  function NoDetailError(ret: string): (r: Option<Outcome>)
    ensures r.Some? ==> |ret| == 2 && ret[0] == 'D' && r.value == NoDetail
  {
    if ret == "D0" then Some(NoDetail) else None
  }

  /** `^D<k>_(\d+)`: one line item is wrong; the capture is the maximal digit run. */
  function LineItemError(ret: string, f: ItemField): (r: Option<Outcome>)
    ensures r.Some? ==> |ret| >= 4 && ret[0] == 'D' && ret[1] == ItemDigit(f) && ret[2] == '_'
    ensures r.Some? ==> r.value.ItemError? && r.value.field == f && IsError(r.value)
  {
    if |ret| >= 3 && ret[..3] == ['D', ItemDigit(f), '_'] && |LeadingRun(ret[3..], IsDigitChar)| > 0
    then Some(ItemError(f, LeadingRun(ret[3..], IsDigitChar)))
    else None
  }

  /** `'S<k>'`: one of the seven service errors. */
  function ServiceFailure(ret: string, k: ServiceKind): (r: Option<Outcome>)
    ensures r.Some? ==> ret == ServiceCode(k) && r.value == ServiceError(k)
  {
    if ret == ServiceCode(k) then Some(ServiceError(k)) else None
  }

  /** Upper case for ASCII letters only, as `/i` folds without the `u` flag
      when both sides would be ASCII. */
  function AsciiUpper(c: char): (u: char)
  {
    if 'a' <= c <= 'z' then (c as int - 32) as char else c
  }

  predicate SameIgnoringAsciiCase(a: string, b: string)
  {
    |a| == |b| && forall i :: 0 <= i < |a| ==> AsciiUpper(a[i]) == AsciiUpper(b[i])
  }

  /** `^InValid$` case-insensitively: the caller's IP address is not allowed. */
  function IpBlockedError(ret: string): (r: Option<Outcome>)
    ensures r.Some? ==> |ret| == 7 && (ret[0] == 'I' || ret[0] == 'i') && r.value == IpBlocked
  {
    if SameIgnoringAsciiCase(ret, "InValid") then
      assert AsciiUpper(ret[0]) == 'I';
      Some(IpBlocked)
    else None
  }

  /** `a || b`: the first classifier that matched. */
  function Or(a: Option<Outcome>, b: Option<Outcome>): (r: Option<Outcome>)
  {
    if a.Some? then a else b
  }

  /** The five line-item classifiers, `D0_` .. `D4_`, in chain order. */
  function ItemErrors(ret: string): (r: Option<Outcome>)
    ensures r.Some? ==> |ret| >= 4 && ret[0] == 'D' && ret[2] == '_' && r.value.ItemError? && IsError(r.value)
  {
    Or(LineItemError(ret, ProductNumber),
    Or(LineItemError(ret, ProductName),
    Or(LineItemError(ret, Quantity),
    Or(LineItemError(ret, UnitPrice),
       LineItemError(ret, Unit)))))
  }

  /** The seven service classifiers, `S1` .. `S7`, in chain order. */
  function ServiceErrors(ret: string): (r: Option<Outcome>)
    ensures r.Some? ==> |ret| == 2 && ret[0] == 'S' && r.value.ServiceError?
  {
    Or(ServiceFailure(ret, DatabaseError),
    Or(ServiceFailure(ret, StrangeDate),
    Or(ServiceFailure(ret, DateRange),
    Or(ServiceFailure(ret, CanNotGetInvoiceNumber),
    Or(ServiceFailure(ret, NoInvoiceNumber),
    Or(ServiceFailure(ret, OutOfLimit),
       ServiceFailure(ret, AlreadyExists)))))))
  }

  /** The error a response token stands for: the `||` chain of the sixteen
      classifiers, first match wins. */
  function Classify(ret: string): (r: Option<Outcome>)
    ensures r.Some? ==> IsError(r.value)
  {
    Or(EmptyOrFormatError(ret),
    Or(XmlFormatError(ret),
    Or(NoDetailError(ret),
    Or(ItemErrors(ret),
    Or(ServiceErrors(ret),
       IpBlockedError(ret))))))
  }

  /** The outcome of a response: a matching classifier wins; otherwise a token
      of exactly ten characters is the invoice number. */
  function Decode(ret: string): (r: Outcome)
    ensures r.Success? || r.Unknown? ==> Classify(ret).None?
    ensures r.Success? ==> r.number == ret && |ret| == 10
    ensures r.Unknown? ==> r.raw == ret && |ret| != 10
  {
    match Classify(ret)
    case Some(e) => e
    case None => if |ret| != 10 then Unknown(ret) else Success(ret)
  }

  /** The outcomes `Decode` can produce: the classified errors, an unknown
      token that no classifier matches and that is not ten characters long,
      and a ten-character token that no classifier matches. */
  predicate WellFormed(o: Outcome)
  {
    match o
    case Unknown(raw) => Classify(raw).None? && |raw| != 10
    case Success(number) => Classify(number).None? && |number| == 10
    case _ => IsError(o)
  }

  /** The token the service sends for an outcome (`M0` for a malformed XML). */
  function Encode(o: Outcome): (ret: string)
  {
    match o
    case FieldEmpty(name) => "M:" + name
    case XmlFormat => "M0"
    case NoDetail => "D0"
    case ItemError(f, index) => ['D', ItemDigit(f), '_'] + index
    case ServiceError(k) => ServiceCode(k)
    case IpBlocked => "InValid"
    case Unknown(raw) => raw
    case Success(number) => number
  }

  /** `M:<name>`, followed by nothing or by a line terminator, is a
      field-empty error naming exactly `name`. */
  lemma FieldEmptyToken(name: string, rest: string)
    requires |name| > 0 && forall i :: 0 <= i < |name| ==> InLine(name[i])
    requires rest == [] || IsLineTerminator(rest[0])
    ensures Decode("M:" + name + rest) == FieldEmpty(name)
  {
    var ret := "M:" + name + rest;
    assert ret[..2] == "M:" && ret[2..] == name + rest;
    LeadingRunUnique(name + rest, InLine, name);
    assert EmptyOrFormatError(ret) == Some(FieldEmpty(name));
  }

  /** `D<k>_<digits>`, followed by nothing or by a non-digit, is the k-th
      line-item error carrying exactly `digits`. */
  lemma ItemErrorToken(f: ItemField, digits: string, rest: string)
    requires |digits| > 0 && forall i :: 0 <= i < |digits| ==> IsDigitChar(digits[i])
    requires rest == [] || !IsDigitChar(rest[0])
    ensures Decode(['D', ItemDigit(f), '_'] + digits + rest) == ItemError(f, digits)
  {
    var ret := ['D', ItemDigit(f), '_'] + digits + rest;
    assert ret[..3] == ['D', ItemDigit(f), '_'] && ret[3..] == digits + rest;
    LeadingRunUnique(digits + rest, IsDigitChar, digits);
    assert ret[0] == 'D' && ret[1] == ItemDigit(f) && |ret| >= 4;
    assert LineItemError(ret, f) == Some(ItemError(f, digits));
    assert ItemErrors(ret) == Some(ItemError(f, digits));
  }

  /** Each of `S1` .. `S7` is its own service error. */
  lemma ServiceToken(k: ServiceKind)
    ensures Decode(ServiceCode(k)) == ServiceError(k)
  {
    var ret := ServiceCode(k);
    assert ret[0] == 'S' && |ret| == 2;
    assert ServiceErrors(ret) == Some(ServiceError(k));
  }

  /** The seven service tokens are distinct. */
  lemma ServiceCodeInjective(k1: ServiceKind, k2: ServiceKind)
    requires ServiceCode(k1) == ServiceCode(k2)
    ensures k1 == k2
  {
  }

  /** Exactly `M0` or `M1` is a malformed XML, exactly `D0` is "no detail". */
  lemma ExactTokens()
    ensures Decode("M0") == XmlFormat && Decode("M1") == XmlFormat
    ensures Decode("D0") == NoDetail
  {
  }

  /** The near misses `M2`, `M0x`, `D0x`, `s7` and `d2_3` match no classifier. */
  lemma NearMisses()
    ensures Decode("M2") == Unknown("M2")
    ensures Decode("M0x") == Unknown("M0x")
    ensures Decode("D0x") == Unknown("D0x")
    ensures Decode("s7") == Unknown("s7")
    ensures Decode("d2_3") == Unknown("d2_3")
  {
    NoMatch("M2");
    NoMatch("M0x");
    NoMatch("D0x");
    NoMatch("s7");
    NoMatch("d2_3");
  }

  /** None of the five near misses listed matches any classifier. */
  lemma NoMatch(ret: string)
    requires ret in ["M2", "M0x", "D0x", "s7", "d2_3"]
    ensures Classify(ret) == None
  {
    assert ret[0] != 'S';
    assert |ret| < 4 || ret[0] != 'D';
  }

  /** `D2_3` is a quantity error at item "3". */
  lemma QuantityErrorExample()
    ensures Decode("D2_3") == ItemError(Quantity, "3")
  {
    ItemErrorToken(Quantity, "3", []);
    assert ['D', '2', '_'] + "3" + [] == "D2_3";
  }

  /** A token that some classifier matches never counts as an invoice number,
      even when it has ten characters. */
  lemma TenCharacterErrorIsNotSuccess()
    ensures Decode("M:12345678") == FieldEmpty("12345678")
  {
    FieldEmptyToken("12345678", []);
    assert "M:12345678" == "M:" + "12345678" + [];
  }

  /** Only `M0` and `M1` are the malformed-XML error. */
  lemma XmlFormatIff(ret: string)
    ensures Decode(ret) == XmlFormat <==> ret == "M0" || ret == "M1"
  {
    ExactTokens();
  }

  /** Only `D0` is the no-detail error. */
  lemma NoDetailIff(ret: string)
    ensures Decode(ret) == NoDetail <==> ret == "D0"
  {
    ExactTokens();
  }

  /** Only the token `S<k>` is the k-th service error. */
  lemma ServiceIff(ret: string, k: ServiceKind)
    ensures Decode(ret) == ServiceError(k) <==> ret == ServiceCode(k)
  {
    if ret == ServiceCode(k) {
      ServiceToken(k);
    }
  }

  /** The token `InValid`, in any mixture of ASCII letter cases and nothing
      else, is the blocked-address error. */
  lemma IpBlockedIff(ret: string)
    ensures Decode(ret) == IpBlocked <==> SameIgnoringAsciiCase(ret, "InValid")
  {
  }

  /** The response is a success exactly when no classifier matches and it has
      ten characters; the invoice number is then the token unchanged. Any
      other unmatched token is an unknown error carrying the token. */
  lemma SuccessIff(ret: string)
    ensures Decode(ret).Success? <==> Classify(ret).None? && |ret| == 10
    ensures Decode(ret).Success? ==> Decode(ret).number == ret
    ensures Decode(ret).Unknown? <==> Classify(ret).None? && |ret| != 10
    ensures Decode(ret).Unknown? ==> Decode(ret).raw == ret
  {
  }

  /** Decoding a well-formed outcome's token gives that outcome back. */
  lemma DecodeEncode(o: Outcome)
    requires WellFormed(o)
    ensures Decode(Encode(o)) == o
  {
    match o
    case FieldEmpty(name) =>
      FieldEmptyToken(name, []);
      assert "M:" + name + [] == "M:" + name;
    case ItemError(f, index) =>
      ItemErrorToken(f, index, []);
      assert ['D', ItemDigit(f), '_'] + index + [] == ['D', ItemDigit(f), '_'] + index;
    case ServiceError(k) => ServiceToken(k);
    case IpBlocked => IpBlockedIff("InValid");
    case XmlFormat => ExactTokens();
    case NoDetail => ExactTokens();
    case Unknown(raw) =>
    case Success(number) =>
  }

  /** Every decoded outcome is well formed: together with `DecodeEncode`, the
      outcomes `Decode` yields are exactly the well-formed ones. */
  lemma DecodeWellFormed(ret: string)
    ensures WellFormed(Decode(ret))
  {
  }
}
