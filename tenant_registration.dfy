/**
 * The self-service sign-up page of `src/pages/auth/TenantRegistration.tsx`:
 * a two-step form (the company, then its administrator) whose "Next" button
 * only moves on when the company step passes, and whose submit sends one
 * `createFull` request and turns a failure into the text shown to the user.
 */
module TenantRegistration {
  import opened Basics
  import opened Text
  import Lists
  import Slug
  import Documents

  const COMPANY_REQUIRED: string := "Nome da empresa é obrigatório"
  const NAME_REQUIRED: string := "Nome é obrigatório"
  const EMAIL_REQUIRED: string := "Email é obrigatório"
  const PASSWORD_REQUIRED: string := "Senha é obrigatória"
  const PASSWORD_TOO_SHORT: string := "A senha deve ter pelo menos 6 caracteres"
  const PASSWORDS_DIFFER: string := "As senhas não coincidem"
  const MIN_PASSWORD: nat := 6

  const CREATE_FAILED: string := "Erro ao criar tenant"
  const IN_USE: string := "já está em uso"
  const DUPLICATE: string := "Já existe um registro"
  const TENANT_EXISTS: string := "Já existe um tenant com esses dados"

  const MODULE: string := "financeiro"
  const USER_LIMIT: nat := 5
  const LOGIN_ROUTE: string := "/login"

  datatype Step = TenantStep | UserStep

  /** The keys of the page's error map. */
  datatype Field = CompanyName | Document | AdminName | AdminEmail | AdminPassword | AdminConfirmPassword

  datatype Form = Form(
    companyName: string,
    document: string,
    documentType: Documents.DocumentType,
    adminName: string,
    adminEmail: string,
    adminPassword: string,
    adminConfirmPassword: string)

  /** The form the page opens with: everything empty, CNPJ selected. */
  const INITIAL_FORM: Form := Form("", "", Documents.Cnpj, "", "", "", "")

  /** The step whose check looks at field `k`. */
  function StepOf(k: Field): Step
  {
    match k
    case CompanyName => TenantStep
    case Document => TenantStep
    case _ => UserStep
  }

  /** Whether `validateStep` flags field `k`; the name and e-mail checks are on the raw text, not trimmed. */
  predicate Fails(f: Form, k: Field)
  {
    match k
    case CompanyName => f.companyName == []
    case Document => Documents.DocumentError(f.documentType, f.document).Some?
    case AdminName => f.adminName == []
    case AdminEmail => f.adminEmail == []
    case AdminPassword => |f.adminPassword| < MIN_PASSWORD
    case AdminConfirmPassword => f.adminPassword != f.adminConfirmPassword
  }

  /** The message `validateStep` gives a flagged field. */
  function Message(f: Form, k: Field): string
  {
    match k
    case CompanyName => COMPANY_REQUIRED
    case Document => if f.documentType == Documents.Cpf then Documents.CPF_INVALID else Documents.CNPJ_INVALID
    case AdminName => NAME_REQUIRED
    case AdminEmail => EMAIL_REQUIRED
    case AdminPassword => if f.adminPassword == [] then PASSWORD_REQUIRED else PASSWORD_TOO_SHORT
    case AdminConfirmPassword => PASSWORDS_DIFFER
  }

  /** The error map of one step: its flagged fields, each with its message. */
  function StepErrors(step: Step, f: Form): map<Field, string>
  {
    map k | k in {CompanyName, Document, AdminName, AdminEmail, AdminPassword, AdminConfirmPassword}
              && StepOf(k) == step && Fails(f, k) :: Message(f, k)
  }

  /** The company step passes. */
  predicate TenantValid(f: Form)
  {
    f.companyName != [] && Documents.DocumentError(f.documentType, f.document).None?
  }

  /** The administrator step passes. */
  predicate UserValid(f: Form)
  {
    && f.adminName != []
    && f.adminEmail != []
    && |f.adminPassword| >= MIN_PASSWORD
    && f.adminPassword == f.adminConfirmPassword
  }

  predicate StepValid(step: Step, f: Form)
  {
    if step == TenantStep then TenantValid(f) else UserValid(f)
  }

  /** A step's error map is empty exactly when the step passes. */
  lemma StepErrorsEmpty(step: Step, f: Form)
    ensures StepErrors(step, f) == map[] <==> StepValid(step, f)
  {
    var e := StepErrors(step, f);
    if step == TenantStep {
      if f.companyName == [] {
        assert CompanyName in e;
      } else if Documents.DocumentError(f.documentType, f.document).Some? {
        assert Document in e;
      }
    } else {
      if f.adminName == [] {
        assert AdminName in e;
      } else if f.adminEmail == [] {
        assert AdminEmail in e;
      } else if |f.adminPassword| < MIN_PASSWORD {
        assert AdminPassword in e;
      } else if f.adminPassword != f.adminConfirmPassword {
        assert AdminConfirmPassword in e;
      }
    }
  }

  /** The `'tenant'` case of `validateStep`. */
  method CheckTenant(f: Form) returns (errors: map<Field, string>)
    ensures errors == StepErrors(TenantStep, f)
  {
    errors := map[];
    if f.companyName == [] {
      errors := errors[CompanyName := COMPANY_REQUIRED];
    }
    var documentError := Documents.DocumentError(f.documentType, f.document);
    if documentError.Some? {
      errors := errors[Document := documentError.value];
    }
    var expected := StepErrors(TenantStep, f);
    forall k | k in expected ensures k in errors && errors[k] == expected[k] {
      assert StepOf(k) == TenantStep && Fails(f, k);
    }
    forall k | k in errors ensures k in expected {
    }
    Lists.MapsEqual(errors, expected);
  }

  /** The `'user'` case of `validateStep`. */
  method CheckUser(f: Form) returns (errors: map<Field, string>)
    ensures errors == StepErrors(UserStep, f)
  {
    errors := map[];
    if f.adminName == [] {
      errors := errors[AdminName := NAME_REQUIRED];
    }
    if f.adminEmail == [] {
      errors := errors[AdminEmail := EMAIL_REQUIRED];
    }
    if f.adminPassword == [] {
      errors := errors[AdminPassword := PASSWORD_REQUIRED];
    } else if |f.adminPassword| < MIN_PASSWORD {
      errors := errors[AdminPassword := PASSWORD_TOO_SHORT];
    }
    if f.adminPassword != f.adminConfirmPassword {
      errors := errors[AdminConfirmPassword := PASSWORDS_DIFFER];
    }
    var expected := StepErrors(UserStep, f);
    forall k | k in expected ensures k in errors && errors[k] == expected[k] {
      assert StepOf(k) == UserStep && Fails(f, k);
    }
    forall k | k in errors ensures k in expected {
    }
    Lists.MapsEqual(errors, expected);
  }

  /**
   * `validateStep(step)`: fill a fresh error map with the checks of that
   * step only; the step passes when the map stays empty.
   */
  method ValidateStep(step: Step, f: Form) returns (errors: map<Field, string>, ok: bool)
    ensures errors == StepErrors(step, f)
    ensures ok <==> StepValid(step, f)
  {
    match step {
      case TenantStep => errors := CheckTenant(f);
      case UserStep => errors := CheckUser(f);
    }
    ok := |errors| == 0;
    StepErrorsEmpty(step, f);
  }

  datatype TenantData = TenantData(
    name: string, slug: string, companyName: string, companyDocument: string,
    companyDocumentType: Documents.DocumentType)

  /** The license part of the request; its empty feature set is not modelled. */
  datatype LicenseData = LicenseData(modules: seq<string>, maxUsers: nat)

  datatype AdminData = AdminData(name: string, email: string, password: string)

  /** The argument of `tenantAPI.createFull`. */
  datatype CreateFullRequest = CreateFullRequest(tenant: TenantData, license: LicenseData, admin: AdminData)

  /**
   * The request `handleSubmit` sends: the company name is also the tenant's
   * name and the source of its slug; the license is the financial module
   * for 5 users.
   */
  function BuildRequest(f: Form): (r: CreateFullRequest)
    ensures r.tenant.slug == Slug.GenerateSlug(f.companyName) && Slug.IsSlug(r.tenant.slug)
    ensures r.tenant.name == f.companyName && r.tenant.companyName == f.companyName
    ensures r.tenant.companyDocument == f.document && r.tenant.companyDocumentType == f.documentType
    ensures r.license == LicenseData([MODULE], USER_LIMIT)
    ensures r.admin == AdminData(f.adminName, f.adminEmail, f.adminPassword)
  {
    Slug.GenerateSlugIsSlug(f.companyName);
    CreateFullRequest(
      TenantData(f.companyName, Slug.GenerateSlug(f.companyName), f.companyName, f.document, f.documentType),
      LicenseData([MODULE], USER_LIMIT),
      AdminData(f.adminName, f.adminEmail, f.adminPassword))
  }

  /**
   * What `JSON.parse(error.message)` makes of a thrown error's message:
   * no JSON at all, the JSON `null`, or some other value with, when it is
   * an object, its `message` property.
   */
  datatype JsonParse = NotJson | JsonNull | JsonValue(message: Option<string>)

  /**
   * The text taken from the error before the special cases: the parsed
   * `message` when it is a non-empty string, the raw message when the
   * parse throws (for `null`, reading `.message` throws inside the same
   * `try`), and the generic text otherwise.
   */
  function Extracted(error: Thrown, parsed: JsonParse): (t: string)
    ensures error.NonError? ==> t == CREATE_FAILED
    ensures error.ErrorObj? && (parsed.NotJson? || parsed.JsonNull?) ==> t == error.message
    ensures error.ErrorObj? && parsed.JsonValue? ==> t == OrElse(parsed.message, CREATE_FAILED)
  {
    match error
    case NonError => CREATE_FAILED
    case ErrorObj(raw) =>
      match parsed
      case NotJson => raw
      case JsonNull => raw
      case JsonValue(message) => if Truthy(message) then message.value else CREATE_FAILED
  }

  /** Neither text the page writes itself mentions a duplicate record. */
  lemma OwnTextsNotDuplicate()
    ensures !Includes(TENANT_EXISTS, DUPLICATE)
    ensures !Includes(CREATE_FAILED, DUPLICATE)
  {
    var s := TENANT_EXISTS;
    assert s[13] == 't';
    forall i | 0 < i < |s| ensures s[i] != 'J' {
    }
    NotIncludes(TENANT_EXISTS, DUPLICATE);
    NotIncludes(CREATE_FAILED, DUPLICATE);
  }

  /**
   * The `submitError` a failed `createFull` leaves: a text saying the data
   * is in use is shown as it is; otherwise one about a duplicate record is
   * replaced by the page's own; anything else is shown as extracted.
   */
  function SubmitErrorText(error: Thrown, parsed: JsonParse): (r: string)
    ensures Includes(Extracted(error, parsed), IN_USE) || !Includes(Extracted(error, parsed), DUPLICATE) ==>
              r == Extracted(error, parsed)
    ensures !Includes(Extracted(error, parsed), IN_USE) && Includes(Extracted(error, parsed), DUPLICATE) ==>
              r == TENANT_EXISTS
    ensures Includes(r, DUPLICATE) ==> Includes(r, IN_USE)
    ensures r == [] ==> error.ErrorObj? && error.message == [] && !parsed.JsonValue?
  {
    OwnTextsNotDuplicate();
    var t := Extracted(error, parsed);
    if Includes(t, IN_USE) then t
    else if Includes(t, DUPLICATE) then TENANT_EXISTS
    else t
  }

  /** The page's state. */
  class Registration {
    var currentStep: Step
    var form: Form
    var errors: map<Field, string>
    var submitError: Option<string>
    /** The `createFull` requests sent so far. */
    var requests: seq<CreateFullRequest>
    /** The route `navigate` was last called with, if any. */
    var navigatedTo: Option<string>

    /** The administrator step is only ever shown for a company that passed its step. */
    predicate Valid()
      reads this
    {
      currentStep == UserStep ==> TenantValid(form)
    }

    constructor ()
      ensures currentStep == TenantStep && form == INITIAL_FORM && errors == map[]
      ensures submitError.None? && requests == [] && navigatedTo.None?
      ensures Valid()
    {
      currentStep := TenantStep;
      form := INITIAL_FORM;
      errors := map[];
      submitError := None;
      requests := [];
      navigatedTo := None;
    }

    /** `handleNext()`: validate the current step and move to the administrator step only if it passes. */
    method HandleNext()
      requires Valid()
      modifies this
      ensures Valid()
      ensures errors == StepErrors(old(currentStep), form)
      ensures currentStep == if StepValid(old(currentStep), form) then UserStep else old(currentStep)
      ensures form == old(form) && submitError == old(submitError)
      ensures requests == old(requests) && navigatedTo == old(navigatedTo)
    {
      var ok;
      errors, ok := ValidateStep(currentStep, form);
      if !ok {
        return;
      }
      currentStep := UserStep;
    }

    /** `handleBack()`: back to the company step; the errors stay. */
    method HandleBack()
      requires Valid()
      modifies this
      ensures Valid()
      ensures currentStep == TenantStep
      ensures form == old(form) && errors == old(errors) && submitError == old(submitError)
      ensures requests == old(requests) && navigatedTo == old(navigatedTo)
    {
      currentStep := TenantStep;
    }

    /** The company-name input, rendered on the company step only. */
    method ChangeCompanyName(name: string)
      requires Valid() && currentStep == TenantStep
      modifies this
      ensures Valid()
      ensures form == old(form).(companyName := name)
      ensures currentStep == old(currentStep) && errors == old(errors) && submitError == old(submitError)
      ensures requests == old(requests) && navigatedTo == old(navigatedTo)
    {
      form := form.(companyName := name);
    }

    /** The document-type select, rendered on the company step only: it also clears the document. */
    method ChangeDocumentType(t: Documents.DocumentType)
      requires Valid() && currentStep == TenantStep
      modifies this
      ensures Valid()
      ensures form == old(form).(documentType := t, document := "")
      ensures Documents.DocumentError(form.documentType, form.document).None?
      ensures currentStep == old(currentStep) && errors == old(errors) && submitError == old(submitError)
      ensures requests == old(requests) && navigatedTo == old(navigatedTo)
    {
      form := form.(documentType := t, document := "");
    }

    /**
     * The document input, rendered on the company step only: the digits
     * typed are masked for the selected type, and an input with more
     * digits than the type allows is ignored.
     */
    method ChangeDocument(typed: string)
      requires Valid() && currentStep == TenantStep
      modifies this
      ensures Valid()
      ensures form == old(form).(document := Documents.OnDocumentInput(old(form).documentType, old(form).document, typed))
      ensures currentStep == old(currentStep) && errors == old(errors) && submitError == old(submitError)
      ensures requests == old(requests) && navigatedTo == old(navigatedTo)
    {
      form := form.(document := Documents.OnDocumentInput(form.documentType, form.document, typed));
    }

    /** The four inputs of the administrator step, each setting its own field. */
    method ChangeAdmin(name: string, email: string, password: string, confirmPassword: string)
      requires Valid()
      modifies this
      ensures Valid()
      ensures form == old(form).(adminName := name, adminEmail := email,
                                 adminPassword := password, adminConfirmPassword := confirmPassword)
      ensures currentStep == old(currentStep) && errors == old(errors) && submitError == old(submitError)
      ensures requests == old(requests) && navigatedTo == old(navigatedTo)
    {
      form := form.(adminName := name, adminEmail := email,
                    adminPassword := password, adminConfirmPassword := confirmPassword);
    }

    /**
     * `handleSubmit`, given how `createFull` settles and what `JSON.parse`
     * makes of its error's message: only the current step is validated; a
     * passing form sends one request and either goes to the login page or
     * shows the failure. A request sent from the administrator step has
     * passed the checks of both steps.
     */
    method HandleSubmit(createError: Option<Thrown>, parsed: JsonParse)
      requires Valid()
      modifies this
      ensures Valid()
      ensures errors == StepErrors(old(currentStep), form)
      ensures !StepValid(old(currentStep), form) ==>
                requests == old(requests) && submitError.None? && navigatedTo == old(navigatedTo)
      ensures StepValid(old(currentStep), form) ==> requests == old(requests) + [BuildRequest(form)]
      ensures StepValid(old(currentStep), form) && createError.None? ==>
                navigatedTo == Some(LOGIN_ROUTE) && submitError.None?
      ensures StepValid(old(currentStep), form) && createError.Some? ==>
                navigatedTo == old(navigatedTo) && submitError == Some(SubmitErrorText(createError.value, parsed))
      ensures old(currentStep) == UserStep && requests != old(requests) ==> TenantValid(form) && UserValid(form)
      ensures form == old(form) && currentStep == old(currentStep)
    {
      submitError := None;
      var ok;
      errors, ok := ValidateStep(currentStep, form);
      if !ok {
        return;
      }
      requests := requests + [BuildRequest(form)];
      match createError {
        case None => navigatedTo := Some(LOGIN_ROUTE);
        case Some(e) => submitError := Some(SubmitErrorText(e, parsed));
      }
    }
  }
}
