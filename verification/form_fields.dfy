/**
 * What the two asset forms share: which input fields an asset type shows, the JavaScript
 * truthiness of an optional number, and the rule that clears the fields a newly chosen type does
 * not show (app/varliklar/yeni-kayit/page.tsx and components/asset/asset-form.tsx).
 */
module FormFields {
  import opened Wrappers
  import opened Types

  /** `!!x` for an optional number: present and not zero. */
  predicate IsTruthy<N(==)>(x: Option<N>, zero: N) {
    x.Some? && x.value != zero
  }

  /** The type-dependent inputs of a form. */
  datatype TypeFields = TypeFields(amount: Option<real>, grams: Option<real>, carat: Option<int>)

  /** The fields after choosing type `t`: weighed gold clears the amount, a currency clears the
      weight and karat, any other type clears all three. */
  function ResetForType(t: AssetType, fields: TypeFields): (r: TypeFields)
    ensures r.amount.Some? ==> IsCurrency(t)
    ensures r.grams.Some? || r.carat.Some? ==> IsWeighedGold(t)
    ensures IsCurrency(t) ==> r.amount == fields.amount
    ensures IsWeighedGold(t) ==> r.grams == fields.grams && r.carat == fields.carat
  {
    if t == Bilezik || t == GramGold then
      fields.(amount := None)
    else if t == TurkishLira || t == Dollar || t == Euro then
      fields.(grams := None, carat := None)
    else
      TypeFields(None, None, None)
  }

  /** The money and the gold inputs are never shown together, so a reset is never undone by a
      second one: resetting twice for the same type is resetting once. */
  lemma ResetIsIdempotent(t: AssetType, fields: TypeFields)
    ensures !(IsCurrency(t) && IsWeighedGold(t))
    ensures ResetForType(t, ResetForType(t, fields)) == ResetForType(t, fields)
  {
  }
}
