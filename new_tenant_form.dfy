/**
 * The new-tenant form of `src/pages/saas/NewTenantForm.tsx`: the checks on
 * its fields, the request it sends with its defaults, and its module
 * checkboxes. The slug and the document mask are in `Slug` and `Documents`.
 */
module NewTenantForm {
  import opened Basics
  import opened Text
  import Lists
  import Slug
  import Documents

  const NAME_REQUIRED: string := "Nome é obrigatório"
  const COMPANY_REQUIRED: string := "Nome da empresa é obrigatório"
  const COMPANY_EMAIL_REQUIRED: string := "Email da empresa é obrigatório"
  const ADMIN_NAME_REQUIRED: string := "Nome do administrador é obrigatório"
  const ADMIN_EMAIL_REQUIRED: string := "Email do administrador é obrigatório"
  const PASSWORD_REQUIRED: string := "Senha é obrigatória"
  const PASSWORD_TOO_SHORT: string := "A senha deve ter pelo menos 6 caracteres"
  const PASSWORDS_DIFFER: string := "As senhas não coincidem"
  const FILL_REQUIRED: string := "Preencha todos os campos obrigatórios"
  const CREATE_FAILED: string := "Erro ao criar tenant"
  const MIN_PASSWORD: nat := 6
  const DEFAULT_MODULE: string := "saas"
  const USER_LIMIT: nat := 5
  const STORAGE_LIMIT: nat := 1024

  /** The keys of the form's error map. */
  datatype Field =
    | Name | CompanyName | CompanyEmail | Document
    | AdminName | AdminEmail | AdminPassword | AdminConfirmPassword | Submit

  datatype Address = Address(
    street: string, number: string, complement: string, neighborhood: string,
    city: string, state: string, zipCode: string)

  datatype Form = Form(
    name: string,
    slug: string,
    companyName: string,
    document: string,
    documentType: Documents.DocumentType,
    companyEmail: string,
    companyPhone: string,
    companyAddress: Address,
    modules: seq<string>,
    expiresAt: string,
    adminName: string,
    adminEmail: string,
    adminPassword: string,
    adminConfirmPassword: string)

  datatype TenantData = TenantData(
    name: string, slug: string, companyName: string, companyDocument: string,
    companyDocumentType: Documents.DocumentType, companyEmail: string, companyPhone: string,
    companyAddress: Address)

  /** The license part of the request; its feature flags are all on and are not modelled. */
  datatype LicenseData = LicenseData(modules: seq<string>, expiresAt: Option<string>, maxUsers: nat, storage: nat)

  datatype AdminData = AdminData(name: string, email: string, password: string)

  /** The argument of `tenantAPI.createFull`. */
  datatype CreateFullRequest = CreateFullRequest(tenant: TenantData, license: LicenseData, admin: AdminData)

  /** Whether `validateForm` puts field `k` in the error map. */
  predicate Fails(f: Form, k: Field)
  {
    match k
    case Name => Blank(f.name)
    case CompanyName => Blank(f.companyName)
    case CompanyEmail => Blank(f.companyEmail)
    case Document => Documents.DocumentError(f.documentType, f.document).Some?
    case AdminName => Blank(f.adminName)
    case AdminEmail => Blank(f.adminEmail)
    case AdminPassword => |f.adminPassword| < MIN_PASSWORD
    case AdminConfirmPassword => f.adminPassword != f.adminConfirmPassword
    case Submit => false
  }

  /** The message `validateForm` gives a failing field. */
  function Message(f: Form, k: Field): string
  {
    match k
    case Name => NAME_REQUIRED
    case CompanyName => COMPANY_REQUIRED
    case CompanyEmail => COMPANY_EMAIL_REQUIRED
    case Document => if f.documentType == Documents.Cpf then Documents.CPF_INVALID else Documents.CNPJ_INVALID
    case AdminName => ADMIN_NAME_REQUIRED
    case AdminEmail => ADMIN_EMAIL_REQUIRED
    case AdminPassword => if f.adminPassword == [] then PASSWORD_REQUIRED else PASSWORD_TOO_SHORT
    case AdminConfirmPassword => PASSWORDS_DIFFER
    case Submit => FILL_REQUIRED
  }

  /** The fields of the tenant and its company, then those of its administrator. */
  const COMPANY_FIELDS: set<Field> := {Name, CompanyName, CompanyEmail, Document}
  const ADMIN_FIELDS: set<Field> := {AdminName, AdminEmail, AdminPassword, AdminConfirmPassword}

  /** The errors `validateForm` records among `fields`: each failing one with its message. */
  function ErrorsAmong(fields: set<Field>, f: Form): map<Field, string>
  {
    map k | k in fields && Fails(f, k) :: Message(f, k)
  }

  /** The error map `validateForm` leaves. */
  function FormErrors(f: Form): map<Field, string>
  {
    ErrorsAmong(COMPANY_FIELDS + ADMIN_FIELDS, f)
  }

  /** The tenant's and the company's fields pass. */
  predicate CompanyValid(f: Form)
  {
    && !Blank(f.name)
    && !Blank(f.companyName)
    && !Blank(f.companyEmail)
    && Documents.DocumentError(f.documentType, f.document).None?
  }

  /** The administrator's fields pass. */
  predicate AdminValid(f: Form)
  {
    && !Blank(f.adminName)
    && !Blank(f.adminEmail)
    && |f.adminPassword| >= MIN_PASSWORD
    && f.adminPassword == f.adminConfirmPassword
  }

  /** The form passes exactly when every check of `validateForm` does. */
  predicate FormValid(f: Form)
  {
    CompanyValid(f) && AdminValid(f)
  }

  /** The error map is empty exactly when the form passes. */
  lemma FormErrorsEmpty(f: Form)
    ensures FormErrors(f) == map[] <==> FormValid(f)
  {
    var e := FormErrors(f);
    if Blank(f.name) {
      assert Name in e;
    } else if Blank(f.companyName) {
      assert CompanyName in e;
    } else if Blank(f.companyEmail) {
      assert CompanyEmail in e;
    } else if Documents.DocumentError(f.documentType, f.document).Some? {
      assert Document in e;
    } else if Blank(f.adminName) {
      assert AdminName in e;
    } else if Blank(f.adminEmail) {
      assert AdminEmail in e;
    } else if |f.adminPassword| < MIN_PASSWORD {
      assert AdminPassword in e;
    } else if f.adminPassword != f.adminConfirmPassword {
      assert AdminConfirmPassword in e;
    }
  }

  /** The first half of `validateForm`: the tenant's and the company's fields. */
  method CheckCompany(f: Form) returns (errors: map<Field, string>)
    ensures errors == ErrorsAmong(COMPANY_FIELDS, f)
  {
    errors := map[];
    if Blank(f.name) {
      errors := errors[Name := NAME_REQUIRED];
    }
    if Blank(f.companyName) {
      errors := errors[CompanyName := COMPANY_REQUIRED];
    }
    if Blank(f.companyEmail) {
      errors := errors[CompanyEmail := COMPANY_EMAIL_REQUIRED];
    }
    var documentError := Documents.DocumentError(f.documentType, f.document);
    if documentError.Some? {
      errors := errors[Document := documentError.value];
    }
    var expected := ErrorsAmong(COMPANY_FIELDS, f);
    forall k | k in expected ensures k in errors && errors[k] == expected[k] {
      assert k in COMPANY_FIELDS && Fails(f, k);
    }
    forall k | k in errors ensures k in expected {
    }
    Lists.MapsEqual(errors, expected);
  }

  /** The second half of `validateForm`: the administrator's fields. */
  method CheckAdmin(f: Form) returns (errors: map<Field, string>)
    ensures errors == ErrorsAmong(ADMIN_FIELDS, f)
  {
    errors := map[];
    if Blank(f.adminName) {
      errors := errors[AdminName := ADMIN_NAME_REQUIRED];
    }
    if Blank(f.adminEmail) {
      errors := errors[AdminEmail := ADMIN_EMAIL_REQUIRED];
    }
    if f.adminPassword == [] {
      errors := errors[AdminPassword := PASSWORD_REQUIRED];
    } else if |f.adminPassword| < MIN_PASSWORD {
      errors := errors[AdminPassword := PASSWORD_TOO_SHORT];
    }
    if f.adminPassword != f.adminConfirmPassword {
      errors := errors[AdminConfirmPassword := PASSWORDS_DIFFER];
    }
    var expected := ErrorsAmong(ADMIN_FIELDS, f);
    forall k | k in expected ensures k in errors && errors[k] == expected[k] {
      assert k in ADMIN_FIELDS && Fails(f, k);
    }
    forall k | k in errors ensures k in expected {
    }
    Lists.MapsEqual(errors, expected);
  }

  /**
   * `validateForm()`: fill the error map field by field; the form passes
   * when the map stays empty.
   */
  method ValidateForm(f: Form) returns (errors: map<Field, string>, ok: bool)
    ensures errors == FormErrors(f)
    ensures ok <==> FormValid(f)
  {
    var company := CheckCompany(f);
    var admin := CheckAdmin(f);
    errors := company + admin;
    var expected := FormErrors(f);
    forall k | k in expected ensures k in errors && errors[k] == expected[k] {
      if k in COMPANY_FIELDS {
        assert k in company;
      } else {
        assert k in admin;
      }
    }
    forall k | k in errors ensures k in expected {
    }
    Lists.MapsEqual(errors, expected);
    ok := |errors| == 0;
    FormErrorsEmpty(f);
  }

  /**
   * The request `handleSubmit` sends: the slug from the name when the form
   * has none, `saas` when no module is chosen, 5 users and 1024 of storage,
   * and the tenant's name and company e-mail for a missing admin name or
   * e-mail.
   */
  function BuildRequest(f: Form): (r: CreateFullRequest)
    ensures r.tenant.slug == if f.slug != [] then f.slug else Slug.GenerateSlug(f.name)
    ensures f.slug == [] ==> Slug.IsSlug(r.tenant.slug)
    ensures r.tenant == TenantData(f.name, r.tenant.slug, f.companyName, f.document, f.documentType,
                                   f.companyEmail, f.companyPhone, f.companyAddress)
    ensures r.license.modules == if f.modules != [] then f.modules else [DEFAULT_MODULE]
    ensures r.license.modules != []
    ensures r.license.expiresAt.None? <==> f.expiresAt == []
    ensures r.license.expiresAt.Some? ==> r.license.expiresAt.value == f.expiresAt
    ensures r.license.maxUsers == USER_LIMIT && r.license.storage == STORAGE_LIMIT
    ensures r.admin.name == (if f.adminName != [] then f.adminName else f.name)
    ensures r.admin.email == (if f.adminEmail != [] then f.adminEmail else f.companyEmail)
    ensures r.admin.password == f.adminPassword
  {
    var slug := if f.slug != [] then f.slug else Slug.GenerateSlug(f.name);
    Slug.GenerateSlugIsSlug(f.name);
    CreateFullRequest(
      TenantData(f.name, slug, f.companyName, f.document, f.documentType, f.companyEmail, f.companyPhone, f.companyAddress),
      LicenseData(
        if |f.modules| > 0 then f.modules else [DEFAULT_MODULE],
        if f.expiresAt != [] then Some(f.expiresAt) else None,
        USER_LIMIT, STORAGE_LIMIT),
      AdminData(
        if f.adminName != [] then f.adminName else f.name,
        if f.adminEmail != [] then f.adminEmail else f.companyEmail,
        f.adminPassword))
  }

  /** A form that passes validation has a name and a company e-mail, so the extra guard of `handleSubmit` never fires. */
  lemma ValidFormHasNameAndEmail(f: Form)
    requires FormValid(f)
    ensures f.name != [] && f.companyEmail != []
  {
    assert Blank([]) by { assert Trim([]) == []; }
  }

  /**
   * `handleSubmit`, given how `createFull` settles: an invalid form adds
   * the generic message and sends nothing; a valid one sends the request,
   * and a failure is shown under `submit`.
   */
  method HandleSubmit(f: Form, createError: Option<Thrown>)
    returns (errors: map<Field, string>, sent: Option<CreateFullRequest>)
    ensures sent.Some? <==> FormValid(f)
    ensures sent.None? ==> errors == FormErrors(f)[Submit := FILL_REQUIRED]
    ensures sent.Some? ==> sent.value == BuildRequest(f)
    ensures sent.Some? && createError.None? ==> errors == map[]
    ensures sent.Some? && createError.Some? ==> errors == map[Submit := MessageOr(createError.value, CREATE_FAILED)]
  {
    var ok;
    errors, ok := ValidateForm(f);
    if !ok || f.name == [] || f.companyEmail == [] {
      if ok {
        ValidFormHasNameAndEmail(f);
      }
      errors := errors[Submit := FILL_REQUIRED];
      return errors, None;
    }
    sent := Some(BuildRequest(f));
    if createError.Some? {
      errors := errors[Submit := MessageOr(createError.value, CREATE_FAILED)];
    }
  }

  /** Typing the tenant name also sets the slug from it. */
  function ChangeName(f: Form, name: string): (r: Form)
    ensures r.name == name && Slug.IsSlug(r.slug)
    ensures r == f.(name := name, slug := Slug.GenerateSlug(name))
  {
    Slug.GenerateSlugIsSlug(name);
    f.(name := name, slug := Slug.GenerateSlug(name))
  }

  /**
   * A module checkbox: checking appends the module, unchecking removes every
   * copy of it, the others keeping their order.
   */
  function SetModuleChecked(modules: seq<string>, id: string, checked: bool): (r: seq<string>)
    ensures checked ==> r == modules + [id]
    ensures !checked ==> id !in r && Lists.IsSubsequence(r, modules)
    ensures !checked ==> forall m :: m != id ==> (m in r <==> m in modules)
  {
    if checked then modules + [id] else Lists.Filter(modules, (m: string) => m != id)
  }

  /** Checking a module that was not chosen and unchecking it again gives back the same choice. */
  lemma CheckThenUncheck(modules: seq<string>, id: string)
    requires id !in modules
    ensures SetModuleChecked(SetModuleChecked(modules, id, true), id, false) == modules
  {
    var keep := (m: string) => m != id;
    Lists.FilterAppend(modules, [id], keep);
    Lists.FilterAll(modules, keep);
    assert Lists.Filter([id], keep) == [];
  }
}
