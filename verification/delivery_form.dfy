/** The delivery-entry form (DeliveryForm.tsx): its schema, the COD check
    in `onSubmit`, and the reset after an accepted entry. */
module DeliveryForm {
  import opened Domain
  import PincodeDashboard

  /** The form's fields.  `date` is `None` when the picker is empty. */
  datatype FormValues = FormValues(
    deliveryBoyName: string,
    date: Option<Time>,
    delivered: int,
    returned: int,
    expectedCod: int,
    actualCodCollected: int,
    codShortageReason: string,
    rvp: int,
    advance: int)

  datatype Field =
    | DeliveryBoyNameField | DateField | DeliveredField | ReturnedField
    | ExpectedCodField | ActualCodField | RvpField | AdvanceField

  /** Why a submission was refused: a schema rule, or the manual COD check. */
  datatype Issue = Invalid(field: Field) | CodAboveExpected

  datatype Outcome =
    | Rejected(issues: set<Issue>)
      /** `submitted` is what `onAddEntry` receives; `next` is the form
          after the reset. */
    | Accepted(submitted: FormValues, next: FormValues)

  /** The fields in the order `formSchema` declares them. */
  const SchemaOrder: seq<Field> := [DeliveryBoyNameField, DateField, DeliveredField, ReturnedField,
                                    ExpectedCodField, ActualCodField, RvpField, AdvanceField]

  /** Every field has its place in the schema. */
  lemma FieldListed(f: Field)
    ensures f in SchemaOrder
  {
    match f
    case DeliveryBoyNameField => assert SchemaOrder[0] == f;
    case DateField => assert SchemaOrder[1] == f;
    case DeliveredField => assert SchemaOrder[2] == f;
    case ReturnedField => assert SchemaOrder[3] == f;
    case ExpectedCodField => assert SchemaOrder[4] == f;
    case ActualCodField => assert SchemaOrder[5] == f;
    case RvpField => assert SchemaOrder[6] == f;
    case AdvanceField => assert SchemaOrder[7] == f;
  }

  /** The schema's rule for one field, broken: a name of at least two
      characters, a date, and no negative number. */
  predicate Violates(v: FormValues, f: Field) {
    match f
    case DeliveryBoyNameField => |v.deliveryBoyName| < 2
    case DateField => v.date.None?
    case DeliveredField => v.delivered < 0
    case ReturnedField => v.returned < 0
    case ExpectedCodField => v.expectedCod < 0
    case ActualCodField => v.actualCodCollected < 0
    case RvpField => v.rvp < 0
    case AdvanceField => v.advance < 0
  }

  /** The fields `formSchema` rejects. */
  function SchemaIssues(v: FormValues): (r: set<Field>)
    ensures forall f :: f in r <==> Violates(v, f)
  {
    var r := set f | f in SchemaOrder && Violates(v, f);
    forall f ensures f in r <==> Violates(v, f) {
      FieldListed(f);
    }
    r
  }

  /** `form.reset({...form.getValues(), ...})`: the name, the reason and
      every number cleared, the date kept. */
  function Reset(v: FormValues): FormValues {
    FormValues("", v.date, 0, 0, 0, 0, "", 0, 0)
  }

  /** `handleSubmit(onSubmit)`: the schema runs first and `onSubmit` only
      sees values that pass it; `onSubmit` then refuses collected COD above
      the expected COD, and otherwise hands the values on unchanged and
      resets the form. */
  function Submit(v: FormValues): (o: Outcome)
    ensures o.Accepted? <==> SchemaIssues(v) == {} && v.actualCodCollected <= v.expectedCod
    ensures o.Rejected? && SchemaIssues(v) != {} ==> o.issues == set f | f in SchemaIssues(v) :: Invalid(f)
    ensures SchemaIssues(v) == {} && v.actualCodCollected > v.expectedCod ==> o == Rejected({CodAboveExpected})
    ensures o.Rejected? ==> o.issues != {}
    ensures o.Accepted? ==>
      && o.submitted == v
      && |v.deliveryBoyName| >= 2 && v.date.Some?
      && 0 <= v.actualCodCollected <= v.expectedCod
      && v.delivered >= 0 && v.returned >= 0 && v.rvp >= 0 && v.advance >= 0
    ensures o.Accepted? ==>
      && o.next.deliveryBoyName == "" && o.next.codShortageReason == ""
      && o.next.date == v.date
      && o.next.delivered == 0 && o.next.returned == 0 && o.next.rvp == 0
      && o.next.expectedCod == 0 && o.next.actualCodCollected == 0 && o.next.advance == 0
  {
    var issues := SchemaIssues(v);
    if issues != {} then
      var r := set g | g in issues :: Invalid(g);
      var f :| f in issues;
      assert Invalid(f) in r;
      Rejected(r)
    else
      PassingValues(v);
      if v.actualCodCollected > v.expectedCod then
        Rejected({CodAboveExpected})
      else
        Accepted(v, Reset(v))
  }

  /** Values with no schema issue meet every rule of the schema. */
  lemma PassingValues(v: FormValues)
    requires SchemaIssues(v) == {}
    ensures |v.deliveryBoyName| >= 2 && v.date.Some?
    ensures v.delivered >= 0 && v.returned >= 0 && v.expectedCod >= 0
    ensures v.actualCodCollected >= 0 && v.rvp >= 0 && v.advance >= 0
  {
    assert !Violates(v, DeliveryBoyNameField) && !Violates(v, DateField);
    assert !Violates(v, DeliveredField) && !Violates(v, ReturnedField);
    assert !Violates(v, ExpectedCodField) && !Violates(v, ActualCodField);
    assert !Violates(v, RvpField) && !Violates(v, AdvanceField);
  }

  /** What `form.watch` returns for an amount: the number the form was
      reset to until the user types in the box, and from then on the box's
      text, here the decimal numeral of the amount typed. */
  datatype Watched = Untouched(n: int) | Typed(n: int)

  function DigitChar(d: int): char
    requires 0 <= d < 10
  {
    ('0' as int + d) as char
  }

  /** The decimal numeral of `n`, most significant digit first. */
  function Digits(n: nat): (s: string)
    ensures 1 <= |s|
    ensures n < 10 <==> |s| == 1
    decreases n
  {
    if n < 10 then [DigitChar(n)] else Digits(n / 10) + [DigitChar(n % 10)]
  }

  /** What a number box holds once `n` is typed into it. */
  function Numeral(n: int): string {
    if n < 0 then "-" + Digits(-n) else Digits(n)
  }

  /** JavaScript's `<` on two strings: lexicographic order by character,
      where a proper prefix comes first.  (JavaScript compares UTF-16 code
      units; on the ASCII numerals compared here the two agree.) */
  predicate TextLess(a: string, b: string)
    decreases |a|
  {
    |b| > 0 && (|a| == 0 || a[0] < b[0] || (a[0] == b[0] && TextLess(a[1..], b[1..])))
  }

  /** The reason box's condition as written: `watch('actualCodCollected') <
      watch('expectedCod')`.  Two typed boxes are compared as strings; when
      either still holds its number, the other is read as a number. */
  function ShortageBoxAsWritten(actual: Watched, expected: Watched): (shown: bool)
    ensures actual.Untouched? || expected.Untouched? ==> (shown <==> actual.n < expected.n)
    ensures (actual.Typed? && expected.Typed? && 0 <= actual.n && 0 <= expected.n &&
             |Numeral(actual.n)| == |Numeral(expected.n)|) ==> (shown <==> actual.n < expected.n)
  {
    if actual.Typed? && expected.Typed? then
      if 0 <= actual.n && 0 <= expected.n && |Numeral(actual.n)| == |Numeral(expected.n)| then
        SameDigitCountAgrees(actual.n, expected.n);
        TextLess(Numeral(actual.n), Numeral(expected.n))
      else
        TextLess(Numeral(actual.n), Numeral(expected.n))
    else
      actual.n < expected.n
  }

  /** The reason box as intended: on screen while the collected COD is short
      of the expected COD.  It agrees with the box as written while both
      amounts hold the numbers the form was reset to, and, once both are
      typed, whenever the two non-negative amounts have equally many
      digits. */
  function ShortageReasonShown(v: FormValues): (shown: bool)
    ensures shown <==> ShortageBoxAsWritten(Untouched(v.actualCodCollected), Untouched(v.expectedCod))
    ensures 0 <= v.actualCodCollected && 0 <= v.expectedCod &&
            |Numeral(v.actualCodCollected)| == |Numeral(v.expectedCod)| ==>
            (shown <==> ShortageBoxAsWritten(Typed(v.actualCodCollected), Typed(v.expectedCod)))
  {
    if 0 <= v.actualCodCollected && 0 <= v.expectedCod
       && |Numeral(v.actualCodCollected)| == |Numeral(v.expectedCod)| then
      SameDigitCountAgrees(v.actualCodCollected, v.expectedCod);
      v.actualCodCollected < v.expectedCod
    else
      v.actualCodCollected < v.expectedCod
  }

  /** Numerals with equally many digits compare as strings the way their
      numbers compare. */
  lemma {:induction false} SameDigitCountAgrees(a: nat, b: nat)
    requires |Digits(a)| == |Digits(b)|
    ensures TextLess(Digits(a), Digits(b)) <==> a < b
    decreases a + b
  {
    if a >= 10 {
      var x, y := DigitChar(a % 10), DigitChar(b % 10);
      SnocTextLess(Digits(a / 10), x, Digits(b / 10), y);
      SameDigitCountAgrees(a / 10, b / 10);
      SameDigitCountAgrees(b / 10, a / 10);
    }
  }

  /** Strings of equal length, each extended by one character, compare by
      the strings and, on a tie, by the characters. */
  lemma {:induction false} SnocTextLess(a: string, x: char, b: string, y: char)
    requires |a| == |b|
    ensures TextLess(a + [x], b + [y]) <==> TextLess(a, b) || (a == b && x < y)
    decreases |a|
  {
    if |a| > 0 {
      assert (a + [x])[1..] == a[1..] + [x];
      assert (b + [y])[1..] == b[1..] + [y];
      SnocTextLess(a[1..], x, b[1..], y);
      assert a == [a[0]] + a[1..];
      assert b == [b[0]] + b[1..];
    }
  }

  /** Typed amounts of 9000 collected against 10000 expected: the numerals
      compare "9000" above "10000", so the reason box stays hidden, yet the
      entry is accepted and its exported row carries a 1000 shortage. */
  lemma ShortageBoxHiddenOnShortfall()
    ensures !ShortageBoxAsWritten(Typed(9000), Typed(10000))
    ensures Submit(FormValues("Ramesh", Some(0), 50, 0, 10000, 9000, "", 0, 0)).Accepted?
    ensures ShortageReasonShown(FormValues("Ramesh", Some(0), 50, 0, 10000, 9000, "", 0, 0))
    ensures PincodeDashboard.ExportRowOf(
              ToEntry(FormValues("Ramesh", Some(0), 50, 0, 10000, 9000, "", 0, 0), "e1", "560001")).codShortage == 1000
  {
    assert Digits(9) == "9";
    assert Digits(90) == "90";
    assert Digits(900) == "900";
    assert Digits(9000) == "9000";
    assert Digits(1) == "1";
    assert Digits(10) == "10";
    assert Digits(100) == "100";
    assert Digits(1000) == "1000";
    assert Digits(10000) == "10000";
    var v := FormValues("Ramesh", Some(0), 50, 0, 10000, 9000, "", 0, 0);
    forall f ensures !Violates(v, f) { }
    assert SchemaIssues(v) == {};
  }

  /** The stored record for accepted values (`{...entry, id}` on the main
      dashboard, `{...entry, pincode}` on an area dashboard). */
  function ToEntry(v: FormValues, id: string, pincode: string): Entry
    requires v.date.Some?
  {
    Entry(id, v.date.value, v.deliveryBoyName, pincode, v.delivered, v.returned, v.rvp,
          v.expectedCod, v.actualCodCollected, None, Some(v.codShortageReason), v.advance)
  }

  /** The reason box is shown exactly when the exported row will carry a
      COD shortage; and for an accepted entry the clamped shortage column is
      the very amount deducted from the row's payout. */
  lemma ShortageShownIffExported(v: FormValues, id: string, pincode: string)
    requires Submit(v).Accepted?
    ensures var row := PincodeDashboard.ExportRowOf(ToEntry(v, id, pincode));
      && (ShortageReasonShown(v) <==> row.codShortage > 0)
      && row.codShortage == v.expectedCod - v.actualCodCollected
      && row.finalPayout == (v.delivered + v.rvp) * DeliveryBoyRate - v.advance - row.codShortage
  {
  }
}
