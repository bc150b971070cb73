/**
 * The one-step "new record" page (app/varliklar/yeni-kayit/page.tsx): a donor and one gift entered
 * together, validated field by field before the donor and the asset are created.
 */
module NewRecordForm {
  import opened Wrappers
  import opened Types
  import opened FormFields

  /** The validation failures, in the order they are checked. */
  datatype FormError = NameRequired | SideRequired | AmountRequired | GramsRequired | CaratRequired

  /** The message shown for each failure. */
  function Message(e: FormError): (m: string)
    ensures m != []
  {
    match e
    case NameRequired => "Bağışçı adı zorunludur."
    case SideRequired => "Gelin veya damat tarafı seçmelisiniz."
    case AmountRequired => "Para birimleri için miktar alanı zorunludur."
    case GramsRequired => "Gram alanı zorunludur."
    case CaratRequired => "Karat/Ayar seçmelisiniz."
  }

  // ---------------------------------------------------------------------------------------
  // String.prototype.trim

  /** The characters `trim` removes: JavaScript white space and line terminators. */
  predicate IsJsWhitespace(c: char) {
    || c == '\t' || c == '\n' || c == '\U{B}' || c == '\U{C}' || c == '\r' || c == ' '
    || c == '\U{A0}' || c == '\U{1680}' || ('\U{2000}' <= c <= '\U{200A}')
    || c == '\U{2028}' || c == '\U{2029}' || c == '\U{202F}' || c == '\U{205F}'
    || c == '\U{3000}' || c == '\U{FEFF}'
  }

  predicate IsBlank(s: string) {
    forall i :: 0 <= i < |s| ==> IsJsWhitespace(s[i])
  }

  /** The length of the leading white space. */
  function LeadingWhitespace(s: string): (k: nat)
    ensures k <= |s| && IsBlank(s[..k])
    ensures k < |s| ==> !IsJsWhitespace(s[k])
    decreases |s|
  {
    if s == [] || !IsJsWhitespace(s[0]) then 0
    else
      var k := LeadingWhitespace(s[1..]);
      assert s[..k + 1] == [s[0]] + s[1..][..k];
      k + 1
  }

  /** Where the trailing white space starts. */
  function TrailingWhitespaceStart(s: string): (k: nat)
    ensures k <= |s| && IsBlank(s[k..])
    ensures 0 < k ==> !IsJsWhitespace(s[k - 1])
    decreases |s|
  {
    if s == [] || !IsJsWhitespace(s[|s| - 1]) then |s|
    else
      var k := TrailingWhitespaceStart(s[..|s| - 1]);
      assert s[k..] == s[..|s| - 1][k..] + [s[|s| - 1]];
      k
  }

  function Trim(s: string): string {
    var t := s[LeadingWhitespace(s)..];
    t[..TrailingWhitespaceStart(t)]
  }

  /** `!name.trim()` holds exactly for names made of white space only, the empty name included. */
  lemma TrimmedEmptyIffBlank(s: string)
    ensures Trim(s) == [] <==> IsBlank(s)
  {
    var k := LeadingWhitespace(s);
    var t := s[k..];
    if Trim(s) == [] {
      assert TrailingWhitespaceStart(t) == 0;
      assert t[0..] == t;
      assert s[..k] == s;
    }
  }

  // ---------------------------------------------------------------------------------------
  // Validation

  /** The first check that fails, in the page's order: a blank donor name, no side chosen, a
      currency without an amount, weighed gold without grams, weighed gold without a karat. */
  function ValidationError(donorName: string, isGroomSide: bool, isBrideSide: bool, assetType: AssetType,
                           fields: TypeFields): (e: Option<FormError>)
    ensures e.None? <==>
      && !IsBlank(donorName)
      && (isGroomSide || isBrideSide)
      && (IsCurrency(assetType) ==> IsTruthy(fields.amount, 0.0))
      && (IsWeighedGold(assetType) ==> IsTruthy(fields.grams, 0.0) && IsTruthy(fields.carat, 0))
  {
    TrimmedEmptyIffBlank(donorName);
    if Trim(donorName) == [] then Some(NameRequired)
    else if !isGroomSide && !isBrideSide then Some(SideRequired)
    else if IsCurrency(assetType) && !IsTruthy(fields.amount, 0.0) then Some(AmountRequired)
    else if IsWeighedGold(assetType) && !IsTruthy(fields.grams, 0.0) then Some(GramsRequired)
    else if IsWeighedGold(assetType) && !IsTruthy(fields.carat, 0) then Some(CaratRequired)
    else None
  }

  /** Each failure is reported only when every earlier check passes: a blank name is reported
      whatever else is wrong, the grams message wins over the karat message, and the amount and
      weight checks never both apply. */
  lemma ValidationOrder(donorName: string, isGroomSide: bool, isBrideSide: bool, assetType: AssetType,
                        fields: TypeFields)
    ensures IsBlank(donorName) ==>
      ValidationError(donorName, isGroomSide, isBrideSide, assetType, fields) == Some(NameRequired)
    ensures ValidationError(donorName, isGroomSide, isBrideSide, assetType, fields) == Some(SideRequired)
      <==> !IsBlank(donorName) && !isGroomSide && !isBrideSide
    ensures ValidationError(donorName, isGroomSide, isBrideSide, assetType, fields) == Some(AmountRequired)
      <==> !IsBlank(donorName) && (isGroomSide || isBrideSide) && IsCurrency(assetType)
           && !IsTruthy(fields.amount, 0.0)
    ensures ValidationError(donorName, isGroomSide, isBrideSide, assetType, fields) == Some(GramsRequired)
      <==> !IsBlank(donorName) && (isGroomSide || isBrideSide) && IsWeighedGold(assetType)
           && !IsTruthy(fields.grams, 0.0)
    ensures ValidationError(donorName, isGroomSide, isBrideSide, assetType, fields) == Some(CaratRequired)
      <==> !IsBlank(donorName) && (isGroomSide || isBrideSide) && IsWeighedGold(assetType)
           && IsTruthy(fields.grams, 0.0) && !IsTruthy(fields.carat, 0)
  {
    TrimmedEmptyIffBlank(donorName);
  }

  /** The two requests the page sends on a valid submit: the donor, then the asset (whose donor
      id the first response supplies). */
  datatype DonorRequest = DonorRequest(name: string, isGroomSide: bool, isBrideSide: bool)
  datatype AssetRequest = AssetRequest(assetType: AssetType, quantity: real, amount: Option<real>,
                                       grams: Option<real>, carat: Option<int>, dateReceived: int)
  datatype Submission = Submission(donor: DonorRequest, asset: AssetRequest)

  /** The page's state. */
  class NewRecordPage {
    var donorName: string
    var isGroomSide: bool
    var isBrideSide: bool
    var assetType: AssetType
    var quantity: real
    var fields: TypeFields
    var dateReceived: int
    var error: Option<FormError>

    /** The initial state; the date defaults to the wedding date, else today. */
    constructor(weddingDate: Option<int>, today: int)
      ensures donorName == "" && !isGroomSide && !isBrideSide
      ensures assetType == CeyrekAltin && quantity == 1.0
      ensures fields == TypeFields(None, None, None)
      ensures dateReceived == weddingDate.GetOr(today)
      ensures error == None
    {
      donorName := "";
      isGroomSide := false;
      isBrideSide := false;
      assetType := CeyrekAltin;
      quantity := 1.0;
      fields := TypeFields(None, None, None);
      dateReceived := if weddingDate.Some? then weddingDate.value else today;
      error := None;
    }

    function CurrentError(): Option<FormError>
      reads this
    {
      ValidationError(donorName, isGroomSide, isBrideSide, assetType, fields)
    }

    /** `validateForm`: true when every check passes; otherwise the first failure is shown. */
    method ValidateForm() returns (ok: bool)
      modifies this`error
      ensures ok <==> CurrentError().None?
      ensures !ok ==> error == CurrentError()
      ensures ok ==> error == old(error)
    {
      if Trim(donorName) == [] {
        error := Some(NameRequired);
        return false;
      }
      if !isGroomSide && !isBrideSide {
        error := Some(SideRequired);
        return false;
      }
      var showMoneyFields := assetType == TurkishLira || assetType == Dollar || assetType == Euro;
      var showGoldFields := assetType == Bilezik || assetType == GramGold;
      if showMoneyFields && (fields.amount.None? || fields.amount.value == 0.0) {
        error := Some(AmountRequired);
        return false;
      }
      if showGoldFields {
        if fields.grams.None? || fields.grams.value == 0.0 {
          error := Some(GramsRequired);
          return false;
        }
        if fields.carat.None? || fields.carat.value == 0 {
          error := Some(CaratRequired);
          return false;
        }
      }
      return true;
    }

    /** `handleSubmit` up to the requests: nothing is sent when validation fails; otherwise the
        error is cleared and the donor and asset requests carry the fields as entered. */
    method HandleSubmit() returns (submission: Option<Submission>)
      modifies this`error
      ensures submission.None? <==> CurrentError().Some?
      ensures submission.None? ==> error == CurrentError()
      ensures submission.Some? ==> error == None && submission.value == Submission(
        DonorRequest(donorName, isGroomSide, isBrideSide),
        AssetRequest(assetType, quantity, fields.amount, fields.grams, fields.carat, dateReceived))
    {
      var ok := ValidateForm();
      if !ok {
        return None;
      }
      error := None;
      submission := Some(Submission(
        DonorRequest(donorName, isGroomSide, isBrideSide),
        AssetRequest(assetType, quantity, fields.amount, fields.grams, fields.carat, dateReceived)));
    }

    /** The type select's `onChange`: the new type, and the fields it does not show cleared. */
    method SelectAssetType(value: AssetType)
      modifies this`assetType, this`fields
      ensures assetType == value
      ensures fields == ResetForType(value, old(fields))
    {
      assetType := value;
      if value == Bilezik || value == GramGold {
        fields := fields.(amount := None);
      } else if value == TurkishLira || value == Dollar || value == Euro {
        fields := fields.(grams := None, carat := None);
      } else {
        fields := fields.(amount := None, grams := None, carat := None);
      }
    }
  }
}
