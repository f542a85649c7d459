/** The field validator of lib/validator.js: a wrapper around one record that
    checks presence, kind (string or number) and the length of a field's text. */
module Validation {

  /** A JavaScript value as the validator can meet it in a record. Numbers are
      modelled as integers; their text is their decimal rendering. */
  datatype Value =
    | Undefined
    | Null
    | Bool(b: bool)
    | Num(n: int)
    | Str(s: string)
    | Arr(elems: seq<Value>)
    | Obj(props: map<string, Value>)

  /** A plain object: its own properties and their values. */
  type Record = map<string, Value>

  /** The names a rule may list as acceptable kinds ('string', 'number'). */
  datatype Kind = StringKind | NumberKind

  /** Why a field was rejected; each carries the field's name. */
  datatype FieldError = Missing(field: string) | WrongKind(field: string) | TooLong(field: string)

  /** The outcome of a check: it passes, or it throws the given error. */
  datatype Check<+E> = Pass | Fail(error: E)

  /** `typeof v === 'string'`. */
  predicate IsString(v: Value) { v.Str? }

  /** `typeof v === 'number'`. */
  predicate IsNumber(v: Value) { v.Num? }

  /** The kind table: the predicate that decides each kind name. */
  predicate Accepts(k: Kind, v: Value)
  {
    match k
    case StringKind => IsString(v)
    case NumberKind => IsNumber(v)
  }

  /** Some kind of the list accepts the value. */
  predicate HasKind(kinds: seq<Kind>, v: Value)
  {
    exists j :: 0 <= j < |kinds| && Accepts(kinds[j], v)
  }

  lemma HasKindIsTextual(kinds: seq<Kind>, v: Value)
    requires HasKind(kinds, v)
    ensures v.Str? || v.Num?
  {
    var j :| 0 <= j < |kinds| && Accepts(kinds[j], v);
  }

  predicate IsDigitChar(c: char) { '0' <= c <= '9' }

  function DigitChar(d: nat): (c: char)
    requires d < 10
    ensures IsDigitChar(c)
  {
    "0123456789"[d]
  }

  /** The decimal digits of a natural number, most significant first. */
  function NatText(n: nat): (t: string)
    ensures |t| >= 1
    ensures forall i :: 0 <= i < |t| ==> IsDigitChar(t[i])
  {
    if n < 10 then [DigitChar(n)] else NatText(n / 10) + [DigitChar(n % 10)]
  }

  function Pow10(k: nat): (p: nat)
    ensures p >= 1
  {
    if k == 0 then 1 else 10 * Pow10(k - 1)
  }

  /** A natural number has at most k digits exactly when it is below 10^k. */
  lemma {:induction false} NatTextLength(n: nat, k: nat)
    requires k > 0
    ensures |NatText(n)| <= k <==> n < Pow10(k)
  {
    PowAtLeastTen(k);
    if n >= 10 && k > 1 {
      NatTextLength(n / 10, k - 1);
    }
  }

  lemma {:induction false} PowAtLeastTen(k: nat)
    requires k > 0
    ensures Pow10(k) >= 10
  {
    if k > 1 { PowAtLeastTen(k - 1); }
  }

  /** The text `'' + value` of a string or a number. */
  function Text(v: Value): (t: string)
    requires v.Str? || v.Num?
    ensures v.Str? ==> t == v.s
    ensures v.Num? ==> |t| >= 1 && (t[0] == '-' <==> v.n < 0)
    ensures v.Num? ==> forall i :: 1 <= i < |t| ==> IsDigitChar(t[i])
  {
    match v
    case Str(s) => s
    case Num(n) => if n < 0 then "-" + NatText(-n) else NatText(n)
  }

  /** The kind table accepts only strings and numbers, and no value under
      both kind names. */
  lemma AcceptsOneType(v: Value)
    ensures forall k :: Accepts(k, v) ==> v.Str? || v.Num?
    ensures !(Accepts(StringKind, v) && Accepts(NumberKind, v))
  {
  }

  /** A number's text has at most k characters exactly when the number is
      below 10^k, or, for a negative number, when the minus sign leaves room
      for its k - 1 digits. */
  lemma NumberTextLength(n: int, k: nat)
    requires k > 0
    ensures |Text(Num(n))| <= k <==> if n >= 0 then n < Pow10(k) else k > 1 && -n < Pow10(k - 1)
  {
    if n >= 0 {
      NatTextLength(n, k);
    } else if k > 1 {
      NatTextLength(-n, k - 1);
    }
  }

  /** A number's text fits in one character exactly when it is a single digit. */
  lemma NumberTextFitsOne(n: int)
    ensures |Text(Num(n))| <= 1 <==> 0 <= n <= 9
  {
    NumberTextLength(n, 1);
  }

  /** What `validate(field, kinds, length)` decides: an absent field passes; a
      present one must have one of the kinds, and then a text no longer than
      `length`. */
  function Validated(data: Record, field: string, kinds: seq<Kind>, length: nat): (c: Check<FieldError>)
  {
    if field !in data then Pass
    else if !HasKind(kinds, data[field]) then Fail(WrongKind(field))
    else
      HasKindIsTextual(kinds, data[field]);
      if |Text(data[field])| > length then Fail(TooLong(field)) else Pass
  }

  /** What `required(field, kinds, length)` decides: a missing field fails,
      a present one is validated. */
  function RequiredChecked(data: Record, field: string, kinds: seq<Kind>, length: nat): (c: Check<FieldError>)
  {
    if field !in data then Fail(Missing(field)) else Validated(data, field, kinds, length)
  }

  /** The validator object: it holds the record it checks and never changes it. */
  class Validator {
    const data: Record

    constructor (data: Record)
      ensures this.data == data
    {
      this.data := data;
    }

    /** Checks one field; the kind list is searched from its end, as the source does. */
    method Validate(field: string, kinds: seq<Kind>, length: nat) returns (r: Check<FieldError>)
      ensures r == Validated(data, field, kinds, length)
    {
      if field !in data {
        return Pass;
      }
      var value := data[field];
      var i: int := |kinds|;
      while i >= 0
        invariant 0 <= i <= |kinds|
        invariant forall j :: i <= j < |kinds| ==> !Accepts(kinds[j], value)
        decreases i + 1
      {
        i := i - 1;
        if i < 0 || Accepts(kinds[i], value) {
          break;
        }
      }
      if i < 0 {
        return Fail(WrongKind(field));
      }
      if |Text(value)| > length {
        return Fail(TooLong(field));
      }
      return Pass;
    }

    /** Checks a field that must be present. */
    method Required(field: string, kinds: seq<Kind>, length: nat) returns (r: Check<FieldError>)
      ensures r == RequiredChecked(data, field, kinds, length)
    {
      if field !in data {
        return Fail(Missing(field));
      }
      r := Validate(field, kinds, length);
    }
  }

  /** An absent field passes `validate`, whatever the kinds or the length. */
  lemma AbsentFieldPasses(data: Record, field: string, kinds: seq<Kind>, length: nat)
    requires field !in data
    ensures Validated(data, field, kinds, length) == Pass
  {
  }

  /** `required` on an absent field fails, naming that field. */
  lemma AbsentFieldMissing(data: Record, field: string, kinds: seq<Kind>, length: nat)
    requires field !in data
    ensures RequiredChecked(data, field, kinds, length) == Fail(Missing(field))
  {
  }

  /** `required` on a present field is `validate`. */
  lemma RequiredOnPresentIsValidate(data: Record, field: string, kinds: seq<Kind>, length: nat)
    requires field in data
    ensures RequiredChecked(data, field, kinds, length) == Validated(data, field, kinds, length)
  {
  }

  /** A present value fails the kind check exactly when no listed kind accepts it,
      and it fails on kind before length is looked at. */
  lemma KindFailureIff(data: Record, field: string, kinds: seq<Kind>, length: nat)
    requires field in data
    ensures Validated(data, field, kinds, length) == Fail(WrongKind(field))
        <==> forall j :: 0 <= j < |kinds| ==> !Accepts(kinds[j], data[field])
  {
  }

  /** Any one accepting kind suffices, wherever it sits in the list: the
      decision depends only on the set of kinds listed. */
  lemma KindOrderIrrelevant(data: Record, field: string, kinds: seq<Kind>, others: seq<Kind>, length: nat)
    requires forall k :: k in kinds <==> k in others
    ensures Validated(data, field, kinds, length) == Validated(data, field, others, length)
  {
    if field in data {
      var v := data[field];
      if HasKind(kinds, v) {
        var j :| 0 <= j < |kinds| && Accepts(kinds[j], v);
        assert kinds[j] in others;
        var i :| 0 <= i < |others| && others[i] == kinds[j];
        assert Accepts(others[i], v);
      }
      if HasKind(others, v) {
        var j :| 0 <= j < |others| && Accepts(others[j], v);
        assert others[j] in kinds;
        var i :| 0 <= i < |kinds| && kinds[i] == others[j];
        assert Accepts(kinds[i], v);
      }
    }
  }

  /** With no kinds listed, every present field fails the kind check. */
  lemma EmptyKindsFail(data: Record, field: string, length: nat)
    requires field in data
    ensures Validated(data, field, [], length) == Fail(WrongKind(field))
  {
  }

  /** A value of an acceptable kind passes exactly when its text has at most
      `length` characters, and otherwise fails as too long. */
  lemma LengthBoundary(data: Record, field: string, kinds: seq<Kind>, length: nat)
    requires field in data && HasKind(kinds, data[field])
    ensures data[field].Str? || data[field].Num?
    ensures Validated(data, field, kinds, length) == Pass <==> |Text(data[field])| <= length
    ensures Validated(data, field, kinds, length) != Pass ==> Validated(data, field, kinds, length) == Fail(TooLong(field))
  {
    HasKindIsTextual(kinds, data[field]);
  }
}
