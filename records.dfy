/** What the Mongoose models share: document ids, the ways a save can fail,
    and the shipping address sub-document of orders and users. */
module Records {
  import opened Wrappers

  /** A document's `_id`, as the string the pages pass around. */
  type Id = string

  datatype SaveError =
    | ValidationError   // a `required`, `min` or `enum` rule failed
    | DuplicateKey      // a unique index refused the insert
    | MaxSliders        // the slider `pre('save')` hook refused a fourth slider
    | StoreFailure      // the store itself failed (a count that did not complete)

  datatype Address = Address(
    line1: string,
    city: string,
    state: string,
    postal_code: string,
    country: string,
    phone: string)

  /** An address as a caller supplies it: any field may be absent. */
  datatype AddressInput = AddressInput(
    line1: Option<string>,
    city: Option<string>,
    state: Option<string>,
    postal_code: Option<string>,
    country: Option<string>,
    phone: Option<string>)

  const NoAddress := AddressInput(None, None, None, None, None, None)

  /** The stored address: each absent field gets its default, which is ''
      for all fields but the country, whose default the schema names. */
  function FillAddress(a: AddressInput, defaultCountry: string): (r: Address)
    ensures a.line1.Some? ==> r.line1 == a.line1.value
    ensures a.city.Some? ==> r.city == a.city.value
    ensures a.state.Some? ==> r.state == a.state.value
    ensures a.postal_code.Some? ==> r.postal_code == a.postal_code.value
    ensures a.country.Some? ==> r.country == a.country.value
    ensures a.phone.Some? ==> r.phone == a.phone.value
    ensures a.line1.None? ==> r.line1 == ""
    ensures a.city.None? ==> r.city == ""
    ensures a.state.None? ==> r.state == ""
    ensures a.postal_code.None? ==> r.postal_code == ""
    ensures a.phone.None? ==> r.phone == ""
    ensures a.country.None? ==> r.country == defaultCountry
  {
    Address(a.line1.GetOr(""), a.city.GetOr(""), a.state.GetOr(""), a.postal_code.GetOr(""),
            a.country.GetOr(defaultCountry), a.phone.GetOr(""))
  }

  /** With nothing supplied every field is '' except the country. */
  lemma FillNothing(defaultCountry: string)
    ensures var r := FillAddress(NoAddress, defaultCountry);
      r.line1 == r.city == r.state == r.postal_code == r.phone == "" && r.country == defaultCountry
  {
  }
}
