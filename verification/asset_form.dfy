/**
 * The asset edit form (components/asset/asset-form.tsx): its state seeded from an existing asset,
 * the reset of type-dependent fields whenever the type changes, and the checks run on submit.
 */
module AssetForm {
  import opened Wrappers
  import opened Types
  import opened FormFields

  /** The validation failures, in the order they are checked. */
  datatype AssetFormError = DonorRequired | GramsAndCaratRequired | AmountRequired | InitialValueInvalid

  function Message(e: AssetFormError): (m: string)
    ensures m != []
  {
    match e
    case DonorRequired => "Lütfen bir bağışçı seçin."
    case GramsAndCaratRequired => "Bilezik ve Gram Altın için gram ve karat alanları zorunludur."
    case AmountRequired => "Para birimleri için miktar alanı zorunludur."
    case InitialValueInvalid => "Lütfen geçerli bir başlangıç değeri girin."
  }

  /** The asset the form edits; every field may be absent. */
  datatype InitialData = InitialData(
    assetType: Option<AssetType>,
    amount: Option<real>,
    grams: Option<real>,
    carat: Option<int>,
    initialValue: Option<real>,
    currentValue: Option<real>,
    dateReceived: Option<int>,
    donorId: Option<string>)

  /** What `onSubmit` receives. */
  datatype AssetFormData = AssetFormData(
    assetType: AssetType,
    amount: Option<real>,
    grams: Option<real>,
    carat: Option<int>,
    initialValue: real,
    currentValue: Option<real>,
    dateReceived: int,
    donorId: string)

  /** `x || undefined`: a zero becomes absent. */
  function Truthy<N(==)>(x: Option<N>, zero: N): (r: Option<N>)
    ensures r.Some? <==> IsTruthy(x, zero)
    ensures r.Some? ==> r == x
  {
    if x.Some? && x.value != zero then x else None
  }

  /** The first check that fails, in the form's order: no donor, weighed gold without grams or
      karat, a currency without an amount, an initial value that is not positive. */
  function SubmitError(donorId: string, assetType: AssetType, fields: TypeFields, initialValue: real)
    : (e: Option<AssetFormError>)
    ensures e.None? <==>
      && donorId != ""
      && (IsWeighedGold(assetType) ==> IsTruthy(fields.grams, 0.0) && IsTruthy(fields.carat, 0))
      && (IsCurrency(assetType) ==> IsTruthy(fields.amount, 0.0))
      && 0.0 < initialValue
    ensures e == Some(DonorRequired) <==> donorId == ""
    ensures e == Some(InitialValueInvalid) ==> initialValue <= 0.0
  {
    if donorId == "" then Some(DonorRequired)
    else if IsWeighedGold(assetType) && (!IsTruthy(fields.grams, 0.0) || !IsTruthy(fields.carat, 0)) then
      Some(GramsAndCaratRequired)
    else if IsCurrency(assetType) && !IsTruthy(fields.amount, 0.0) then Some(AmountRequired)
    else if initialValue <= 0.0 then Some(InitialValueInvalid)
    else None
  }

  /** Each failure is reported exactly when every earlier check passes and its own fails: the
      weight and karat check runs only with a donor, the amount check only once the weight check
      passed, and the initial value is judged last. */
  lemma SubmitErrorOrder(donorId: string, assetType: AssetType, fields: TypeFields, initialValue: real)
    ensures var e := SubmitError(donorId, assetType, fields, initialValue);
      var goldOk := IsWeighedGold(assetType) ==> IsTruthy(fields.grams, 0.0) && IsTruthy(fields.carat, 0);
      var amountOk := IsCurrency(assetType) ==> IsTruthy(fields.amount, 0.0);
      && (e == Some(GramsAndCaratRequired) <==> donorId != "" && !goldOk)
      && (e == Some(AmountRequired) <==> donorId != "" && goldOk && !amountOk)
      && (e == Some(InitialValueInvalid) <==> donorId != "" && goldOk && amountOk && initialValue <= 0.0)
  {
  }

  class AssetFormState {
    var assetType: AssetType
    var fields: TypeFields
    var initialValue: real
    var currentValue: Option<real>
    var dateReceived: int
    var donorId: string
    var validationError: Option<AssetFormError>

    /** The state on mount: each field from the initial data (`|| default`), then the reset
        effect's first run for the initial type. */
    constructor(initialData: InitialData, today: int)
      ensures assetType == initialData.assetType.GetOr(CeyrekAltin)
      ensures fields == ResetForType(assetType, TypeFields(Truthy(initialData.amount, 0.0),
                                                           Truthy(initialData.grams, 0.0),
                                                           Truthy(initialData.carat, 0)))
      ensures initialValue == initialData.initialValue.GetOr(0.0)
      ensures currentValue == Truthy(initialData.currentValue, 0.0)
      ensures dateReceived == initialData.dateReceived.GetOr(today)
      ensures donorId == initialData.donorId.GetOr("")
      ensures validationError == None
    {
      assetType := if initialData.assetType.Some? then initialData.assetType.value else CeyrekAltin;
      var amount := Truthy(initialData.amount, 0.0);
      var grams := Truthy(initialData.grams, 0.0);
      var carat := Truthy(initialData.carat, 0);
      initialValue := if initialData.initialValue.Some? then initialData.initialValue.value else 0.0;
      currentValue := Truthy(initialData.currentValue, 0.0);
      dateReceived := if initialData.dateReceived.Some? then initialData.dateReceived.value else today;
      donorId := if initialData.donorId.Some? then initialData.donorId.value else "";
      validationError := None;
      fields := TypeFields(amount, grams, carat);
      new;
      ResetFields();
    }

    /** The effect on `[type]`: clear the fields the current type does not show. */
    method ResetFields()
      modifies this`fields
      ensures fields == ResetForType(assetType, old(fields))
    {
      if assetType == Bilezik || assetType == GramGold {
        fields := fields.(amount := None);
      } else if assetType == TurkishLira || assetType == Dollar || assetType == Euro {
        fields := fields.(grams := None, carat := None);
      } else {
        fields := fields.(amount := None, grams := None, carat := None);
      }
    }

    /** Choosing a type: the effect runs only when the type actually changes. */
    method SetType(t: AssetType)
      modifies this`assetType, this`fields
      ensures assetType == t
      ensures fields == if t == old(assetType) then old(fields) else ResetForType(t, old(fields))
    {
      var changed := t != assetType;
      assetType := t;
      if changed {
        ResetFields();
      }
    }

    function CurrentError(): Option<AssetFormError>
      reads this
    {
      SubmitError(donorId, assetType, fields, initialValue)
    }

    /** `handleSubmit`: the error is cleared, then set by the first failing check; `onSubmit`
        gets the current field values only when every check passes. */
    method HandleSubmit() returns (data: Option<AssetFormData>)
      modifies this`validationError
      ensures validationError == CurrentError()
      ensures data.Some? <==> CurrentError().None?
      ensures data.Some? ==> data.value == AssetFormData(assetType, fields.amount, fields.grams,
        fields.carat, initialValue, currentValue, dateReceived, donorId)
    {
      validationError := None;
      if donorId == "" {
        validationError := Some(DonorRequired);
        return None;
      }
      if assetType == Bilezik || assetType == GramGold {
        if fields.grams.None? || fields.grams.value == 0.0 || fields.carat.None? || fields.carat.value == 0 {
          validationError := Some(GramsAndCaratRequired);
          return None;
        }
      }
      if assetType == TurkishLira || assetType == Dollar || assetType == Euro {
        if fields.amount.None? || fields.amount.value == 0.0 {
          validationError := Some(AmountRequired);
          return None;
        }
      }
      if initialValue <= 0.0 {
        validationError := Some(InitialValueInvalid);
        return None;
      }
      data := Some(AssetFormData(assetType, fields.amount, fields.grams, fields.carat,
                                 initialValue, currentValue, dateReceived, donorId));
    }
  }

  /** A form that passes its checks submits only the fields its type shows, with the weight and
      karat of weighed gold and the amount of a currency present. */
  lemma ValidSubmissionShape(assetType: AssetType, fields: TypeFields, donorId: string, initialValue: real,
                             before: TypeFields)
    requires fields == ResetForType(assetType, before)
    requires SubmitError(donorId, assetType, fields, initialValue).None?
    ensures IsWeighedGold(assetType) ==> fields.grams.Some? && fields.carat.Some? && fields.amount.None?
    ensures IsCurrency(assetType) ==> fields.amount.Some? && fields.grams.None? && fields.carat.None?
    ensures !IsWeighedGold(assetType) && !IsCurrency(assetType) ==>
      fields == TypeFields(None, None, None)
  {
  }
}
