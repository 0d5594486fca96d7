/**
 * The "Join" page where a caterer applies to be listed: the form schema and
 * the reset of the form after an accepted submit.
 */
module ProviderApplication {
  import opened Wrappers
  import opened Strings
  import CatalogData

  datatype ProviderValues = ProviderValues(
    name: string,
    phoneNumber: string,
    serviceAreas: string,
    speciality: string,
    description: string
  )

  const MinNameLength := 2
  const MinPhoneLength := 10
  const MinServiceAreasLength := 3
  const MinSpecialityLength := 3
  const MinDescriptionLength := 20

  /** `providerSchema`: five minimum lengths and nothing else. */
  predicate ProviderSchemaAccepts(v: ProviderValues)
  {
    && Utf16Length(v.name) >= MinNameLength
    && Utf16Length(v.phoneNumber) >= MinPhoneLength
    && Utf16Length(v.serviceAreas) >= MinServiceAreasLength
    && Utf16Length(v.speciality) >= MinSpecialityLength
    && Utf16Length(v.description) >= MinDescriptionLength
  }

  const DefaultValues := ProviderValues("", "", "", "", "")

  function Lengths(v: ProviderValues): seq<nat>
  {
    [Utf16Length(v.name), Utf16Length(v.phoneNumber), Utf16Length(v.serviceAreas),
     Utf16Length(v.speciality), Utf16Length(v.description)]
  }

  /** The verdict depends on the five lengths only, never on the characters. */
  lemma VerdictDependsOnlyOnLengths(v: ProviderValues, w: ProviderValues)
    requires Lengths(v) == Lengths(w)
    ensures ProviderSchemaAccepts(v) <==> ProviderSchemaAccepts(w)
  {
  }

  lemma DefaultValuesRejected()
    ensures !ProviderSchemaAccepts(DefaultValues)
  {
  }

  /** Ten characters pass as a phone number, digits or not; nine never do. */
  lemma PhoneCheckedByLengthOnly(v: ProviderValues)
    requires ProviderSchemaAccepts(v)
    ensures ProviderSchemaAccepts(v.(phoneNumber := "call me!!!"))
    ensures !ProviderSchemaAccepts(v.(phoneNumber := "555555555"))
  {
  }

  /** The catalog's own phone numbers are too short for the form. */
  lemma FixturePhonesTooShort(art: CatalogData.Artwork)
    ensures Utf16Length(CatalogData.GourmetDelights(art).phone) < MinPhoneLength
    ensures Utf16Length(CatalogData.FeastCreators(art).phone) < MinPhoneLength
    ensures Utf16Length(CatalogData.SimplyServed(art).phone) < MinPhoneLength
  {
  }

  /** Service areas and specialities are never split on commas: one short area fails, a comma list passes. */
  lemma AreasNotSplit(v: ProviderValues)
    requires ProviderSchemaAccepts(v)
    ensures ProviderSchemaAccepts(v.(serviceAreas := "Downtown", speciality := "BBQ"))
    ensures ProviderSchemaAccepts(v.(serviceAreas := "A, B", speciality := "a,b"))
    ensures !ProviderSchemaAccepts(v.(serviceAreas := "NY"))
  {
  }

  /** The page's form: its current values. */
  class ProviderForm {
    var values: ProviderValues

    constructor()
      ensures values == DefaultValues
    {
      values := DefaultValues;
    }

    method Edit(v: ProviderValues)
      modifies this
      ensures values == v
    {
      values := v;
    }

    /**
     * A submit: the schema gates `onSubmit`, which hands the data on (to the
     * log and the toast) and resets every field to ''.
     */
    method Submit() returns (submitted: Option<ProviderValues>)
      modifies this
      ensures submitted.Some? <==> ProviderSchemaAccepts(old(values))
      ensures submitted.Some? ==> submitted.value == old(values) && values == DefaultValues
      ensures submitted.None? ==> values == old(values)
    {
      if ProviderSchemaAccepts(values) {
        submitted := Some(values);
        values := DefaultValues;
      } else {
        submitted := None;
      }
    }
  }
}
