/**
 * The SaaS store of `src/store/saas.ts`: the licenses as last fetched, the
 * selected license, and the loading and error fields.
 */
module SaasStore {
  import opened Basics

  const FETCH_ERROR: string := "Erro ao carregar licenças"

  datatype Status = Active | Inactive | Suspended

  /** A license row; only `id` matters to the store. */
  datatype License = License(
    id: string,
    name: string,
    domain: string,
    companyName: string,
    tenantId: string,
    modules: seq<string>,
    status: Status)

  /** `licenses.map(l => l.id === license.id ? license : l)` */
  function ReplaceLicense(licenses: seq<License>, license: License): (r: seq<License>)
    ensures |r| == |licenses|
    ensures forall i :: 0 <= i < |licenses| && licenses[i].id == license.id ==> r[i] == license
    ensures forall i :: 0 <= i < |licenses| && licenses[i].id != license.id ==> r[i] == licenses[i]
  {
    seq(|licenses|, i requires 0 <= i < |licenses| => if licenses[i].id == license.id then license else licenses[i])
  }

  /** Updating a license twice with the same value is the same as once. */
  lemma ReplaceLicenseIdempotent(licenses: seq<License>, license: License)
    ensures ReplaceLicense(ReplaceLicense(licenses, license), license) == ReplaceLicense(licenses, license)
  {
  }

  class SaasStore {
    var licenses: seq<License>
    var activeLicense: Option<License>
    var isLoading: bool
    var error: Option<string>

    constructor ()
      ensures licenses == [] && activeLicense.None? && !isLoading && error.None?
    {
      licenses := [];
      activeLicense := None;
      isLoading := false;
      error := None;
    }

    /**
     * `fetchLicenses()`, given the result of the license query: on failure
     * the list is emptied, not kept.
     */
    method FetchLicenses(found: Result<Option<seq<License>>>)
      modifies this
      ensures !isLoading
      ensures found.Ok? ==> licenses == (if found.value.Some? then found.value.value else []) && error.None?
      ensures found.Threw? ==> licenses == [] && error == Some(MessageOr(found.thrown, FETCH_ERROR))
      ensures activeLicense == old(activeLicense)
    {
      isLoading, error := true, None;
      match found {
        case Ok(data) => licenses := if data.Some? then data.value else [];
        case Threw(e) => error, licenses := Some(MessageOr(e, FETCH_ERROR)), [];
      }
      isLoading := false;
    }

    /** `addLicense(license)` */
    method AddLicense(license: License)
      modifies this
      ensures licenses == [license] + old(licenses)
      ensures activeLicense == old(activeLicense) && isLoading == old(isLoading) && error == old(error)
    {
      licenses := [license] + licenses;
    }

    /** `updateLicense(license)` */
    method UpdateLicense(license: License)
      modifies this
      ensures licenses == ReplaceLicense(old(licenses), license)
      ensures activeLicense == old(activeLicense) && isLoading == old(isLoading) && error == old(error)
    {
      licenses := ReplaceLicense(licenses, license);
    }

    /** `setActiveLicense(license)` */
    method SetActiveLicense(license: Option<License>)
      modifies this
      ensures activeLicense == license
      ensures licenses == old(licenses) && isLoading == old(isLoading) && error == old(error)
    {
      activeLicense := license;
    }

    /** `setError(error)` */
    method SetError(e: Option<string>)
      modifies this
      ensures error == e
      ensures licenses == old(licenses) && activeLicense == old(activeLicense) && isLoading == old(isLoading)
    {
      error := e;
    }
  }
}
