/**
 * The license form of `src/pages/saas/LicenseForm.tsx`: its checks on the
 * fields, the domain pattern, the document field and the cleaning of the
 * fields before the license is created.
 */
module LicenseForm {
  import opened Basics
  import opened Text
  import Lists
  import Documents

  const NAME_REQUIRED: string := "Nome da licença é obrigatório"
  const DOMAIN_REQUIRED: string := "Domínio é obrigatório"
  const DOMAIN_INVALID: string := "Domínio inválido"
  const COMPANY_REQUIRED: string := "Nome da empresa é obrigatório"
  const MODULES_REQUIRED: string := "Selecione pelo menos um módulo"
  const CREATE_FAILED: string := "Erro ao criar licença. Verifique os dados e tente novamente."

  /** The keys of the form's error map. */
  datatype Field = Name | Domain | CompanyName | Document | Modules | ExpiresAt | Submit

  datatype Form = Form(
    name: string,
    domain: string,
    companyName: string,
    document: string,
    documentType: Documents.DocumentType,
    modules: seq<string>,
    expiresAt: string,
    primaryColor: string)

  /** The license request built from the form on submit. */
  datatype LicenseRequest = LicenseRequest(
    name: string,
    domain: string,
    companyName: string,
    document: Option<string>,
    documentType: Option<Documents.DocumentType>,
    modules: seq<string>,
    expiresAt: Option<string>,
    primaryColor: string)

  /** `validateDocument(doc, type)`: an empty document passes; otherwise it needs the type's digit count. */
  function ValidateDocument(doc: string, t: Documents.DocumentType): (ok: bool)
    ensures doc == [] ==> ok
    ensures doc != [] ==> (ok <==> Documents.HasLength(t, doc))
    ensures t == Documents.Cpf && doc != [] ==> (ok <==> |OnlyDigits(doc)| == 11)
    ensures t == Documents.Cnpj && doc != [] ==> (ok <==> |OnlyDigits(doc)| == 14)
  {
    doc == [] || Documents.HasLength(t, doc)
  }

  predicate IsLabelChar(c: char) { IsAsciiAlnum(c) || c == '-' }

  /** `[a-zA-Z0-9][a-zA-Z0-9-]{1,61}[a-zA-Z0-9]`: 3 to 63 characters, alphanumeric at both ends. */
  predicate LabelOk(s: string)
  {
    && 3 <= |s| <= 63
    && IsAsciiAlnum(s[0]) && IsAsciiAlnum(s[|s| - 1])
    && forall i :: 0 <= i < |s| ==> IsLabelChar(s[i])
  }

  /** `[a-zA-Z]{2,}`: two or more ASCII letters. */
  predicate TldOk(s: string)
  {
    |s| >= 2 && forall i :: 0 <= i < |s| ==> IsAsciiLetter(s[i])
  }

  /** The pattern split at the dot in position `k`: a label, the dot, a top-level domain. */
  predicate DomainAt(s: string, k: nat)
  {
    k < |s| && s[k] == '.' && LabelOk(s[..k]) && TldOk(s[k + 1..])
  }

  /**
   * `validateDomain(domain)`: the domain is a label, one dot and a
   * top-level domain of letters, which is what the pattern
   * `^[a-zA-Z0-9][a-zA-Z0-9-]{1,61}[a-zA-Z0-9]\.[a-zA-Z]{2,}$` accepts.
   */
  function ValidateDomain(s: string): (ok: bool)
    ensures ok <==> exists k: nat :: DomainAt(s, k)
  {
    match IndexOf(s, '.')
    case None => false
    case Some(k) =>
      if LabelOk(s[..k]) && TldOk(s[k + 1..]) then
        assert DomainAt(s, k);
        true
      else
        false
  }

  /** A domain the pattern accepts has exactly one dot. */
  lemma ValidDomainOneDot(s: string, k: nat)
    requires DomainAt(s, k)
    ensures forall j :: 0 <= j < |s| && s[j] == '.' ==> j == k
  {
    assert forall j :: 0 <= j < k ==> s[..k][j] == s[j];
    assert forall j :: k < j < |s| ==> s[k + 1..][j - k - 1] == s[j];
  }

  /** A domain with two dots is rejected. */
  lemma TwoDotsRejected(s: string, a: nat, b: nat)
    requires a < b < |s| && s[a] == '.' && s[b] == '.'
    ensures !ValidateDomain(s)
  {
    forall k: nat | DomainAt(s, k) ensures false {
      ValidDomainOneDot(s, k);
    }
  }

  /** The field's own placeholder, `empresa.com.br`, is rejected. */
  lemma PlaceholderRejected()
    ensures !ValidateDomain("empresa.com.br")
  {
    var s := "empresa.com.br";
    assert s[7] == '.' && s[11] == '.';
    TwoDotsRejected(s, 7, 11);
  }

  /** A single-dot domain such as `empresa.com` is accepted. */
  lemma SingleDotAccepted()
    ensures ValidateDomain("empresa.com")
  {
    assert DomainAt("empresa.com", 7);
  }

  /** The form passes exactly when every check of `validateForm` does. */
  predicate FormValid(f: Form)
  {
    && !Blank(f.name)
    && !Blank(f.domain) && ValidateDomain(f.domain)
    && !Blank(f.companyName)
    && |f.modules| > 0
  }

  /** Whether the check of `validateForm` on field `k` fails; `submit` is not a check. */
  predicate Fails(f: Form, k: Field)
  {
    match k
    case Name => Blank(f.name)
    case Domain => Blank(f.domain) || !ValidateDomain(f.domain)
    case CompanyName => Blank(f.companyName)
    case Modules => f.modules == []
    case Document => false
    case ExpiresAt => false
    case Submit => false
  }

  /** The message `validateForm` shows for field `k` when its check fails. */
  function Message(f: Form, k: Field): string
  {
    match k
    case Name => NAME_REQUIRED
    case Domain => if Blank(f.domain) then DOMAIN_REQUIRED else DOMAIN_INVALID
    case CompanyName => COMPANY_REQUIRED
    case Modules => MODULES_REQUIRED
    case Document => []
    case ExpiresAt => []
    case Submit => []
  }

  /** The `newErrors` map `validateForm` builds: one entry per failing check. */
  function FormErrors(f: Form): map<Field, string>
  {
    map k | k in {Name, Domain, CompanyName, Modules} && Fails(f, k) :: Message(f, k)
  }

  lemma FormErrorsEmpty(f: Form)
    ensures FormErrors(f) == map[] <==> FormValid(f)
  {
    var e := FormErrors(f);
    if Blank(f.name) {
      assert Name in e;
    } else if Blank(f.domain) || !ValidateDomain(f.domain) {
      assert Domain in e;
    } else if Blank(f.companyName) {
      assert CompanyName in e;
    } else if f.modules == [] {
      assert Modules in e;
    }
  }

  /**
   * `validateForm()`: fill the error map field by field; the form passes
   * when the map stays empty. The document is not checked.
   */
  method ValidateForm(f: Form) returns (errors: map<Field, string>, ok: bool)
    ensures errors.Keys <= {Name, Domain, CompanyName, Modules}
    ensures Name in errors <==> Blank(f.name)
    ensures Name in errors ==> errors[Name] == NAME_REQUIRED
    ensures Domain in errors <==> Blank(f.domain) || !ValidateDomain(f.domain)
    ensures Domain in errors ==> errors[Domain] == if Blank(f.domain) then DOMAIN_REQUIRED else DOMAIN_INVALID
    ensures CompanyName in errors <==> Blank(f.companyName)
    ensures CompanyName in errors ==> errors[CompanyName] == COMPANY_REQUIRED
    ensures Modules in errors <==> f.modules == []
    ensures Modules in errors ==> errors[Modules] == MODULES_REQUIRED
    ensures errors == FormErrors(f)
    ensures ok <==> errors == map[]
    ensures ok <==> FormValid(f)
  {
    errors := map[];
    if Blank(f.name) {
      errors := errors[Name := NAME_REQUIRED];
    }
    if Blank(f.domain) {
      errors := errors[Domain := DOMAIN_REQUIRED];
    } else if !ValidateDomain(f.domain) {
      errors := errors[Domain := DOMAIN_INVALID];
    }
    if Blank(f.companyName) {
      errors := errors[CompanyName := COMPANY_REQUIRED];
    }
    if |f.modules| == 0 {
      errors := errors[Modules := MODULES_REQUIRED];
    }
    var expected := FormErrors(f);
    forall k | k in expected ensures k in errors && errors[k] == expected[k] {
      assert Fails(f, k);
    }
    forall k | k in errors ensures k in expected {
    }
    Lists.MapsEqual(errors, expected);
    ok := |errors| == 0;
    FormErrorsEmpty(f);
  }

  /** The document does not take part in validation: any document passes or fails alike. */
  lemma DocumentNotValidated(f: Form, doc: string)
    ensures FormValid(f.(document := doc)) == FormValid(f)
  {
  }

  /**
   * The cleaning in `handleSubmit`: names and domain trimmed, the document
   * reduced to its digits, the document type sent only with a document,
   * and an empty expiry date left out.
   */
  function Clean(f: Form): (r: LicenseRequest)
    ensures r.name == Trim(f.name) && r.domain == Trim(f.domain) && r.companyName == Trim(f.companyName)
    ensures r.document.None? <==> f.document == []
    ensures r.document.Some? ==> r.document.value == OnlyDigits(f.document) && AllDigits(r.document.value)
    ensures r.documentType.Some? <==> f.document != []
    ensures r.documentType.Some? ==> r.documentType.value == f.documentType
    ensures r.expiresAt.None? <==> f.expiresAt == []
    ensures r.expiresAt.Some? ==> r.expiresAt.value == f.expiresAt
    ensures r.modules == f.modules && r.primaryColor == f.primaryColor
  {
    LicenseRequest(
      Trim(f.name), Trim(f.domain), Trim(f.companyName),
      if f.document != [] then Some(OnlyDigits(f.document)) else None,
      if f.document != [] then Some(f.documentType) else None,
      f.modules,
      if f.expiresAt != [] then Some(f.expiresAt) else None,
      f.primaryColor)
  }

  /** A document entered through the mask is sent as exactly the digits that were typed. */
  lemma MaskedDocumentSentAsTyped(f: Form, d: string)
    requires AllDigits(d) && d != [] && f.document == Documents.Mask(f.documentType, d)
    ensures Clean(f).document == Some(d) && Clean(f).documentType == Some(f.documentType)
  {
    Documents.MaskKeepsDigits(f.documentType, d);
  }

  /**
   * `handleSubmit`, given how `licenseAPI.create` settles: a failing form
   * only shows its errors; a passing one sends the cleaned request, then
   * closes on success or adds the generic message under `submit`.
   */
  method HandleSubmit(f: Form, createError: Option<Thrown>)
    returns (errors: map<Field, string>, sent: Option<LicenseRequest>, closed: bool)
    ensures sent.Some? <==> FormValid(f)
    ensures sent.None? ==> errors == FormErrors(f) && errors != map[] && Submit !in errors
    ensures sent.Some? ==> sent.value == Clean(f)
    ensures closed <==> sent.Some? && createError.None?
    ensures sent.Some? && createError.None? ==> errors == map[]
    ensures sent.Some? && createError.Some? ==> errors == map[Submit := CREATE_FAILED]
  {
    var ok;
    errors, ok := ValidateForm(f);
    if !ok {
      return errors, None, false;
    }
    sent := Some(Clean(f));
    closed := createError.None?;
    if createError.Some? {
      errors := errors[Submit := CREATE_FAILED];
    }
  }

  /**
   * The module checkbox: a module not chosen is appended; a chosen one is
   * removed, every copy of it, the others keeping their order.
   */
  function ToggleModule(modules: seq<string>, id: string): (r: seq<string>)
    ensures id !in modules ==> r == modules + [id]
    ensures id in modules ==> id !in r && Lists.IsSubsequence(r, modules)
    ensures id in modules ==> forall m :: m != id ==> (m in r <==> m in modules)
  {
    if id in modules then Lists.Filter(modules, (m: string) => m != id) else modules + [id]
  }

  /**
   * `if (errors[k]) setErrors(prev => ({ ...prev, [k]: '' }))`, as the name,
   * domain and module inputs do after an edit: a shown error is blanked,
   * so it is no longer shown, and every other entry stays.
   */
  function ClearShown(errors: map<Field, string>, k: Field): (r: map<Field, string>)
    ensures k in r <==> k in errors
    ensures k in r ==> r[k] == []
    ensures forall j :: j != k ==> (j in r <==> j in errors) && (j in errors ==> r[j] == errors[j])
  {
    if k in errors && errors[k] != [] then errors[k := []] else errors
  }

  /** The name input: the name becomes what was typed, and its error is no longer shown. */
  function ChangeName(f: Form, errors: map<Field, string>, typed: string): (r: (Form, map<Field, string>))
    ensures r.0 == f.(name := typed)
    ensures Name !in r.1 || r.1[Name] == []
    ensures r.1 == ClearShown(errors, Name)
  {
    (f.(name := typed), ClearShown(errors, Name))
  }

  /** The domain input: the domain becomes what was typed, and its error is no longer shown. */
  function ChangeDomain(f: Form, errors: map<Field, string>, typed: string): (r: (Form, map<Field, string>))
    ensures r.0 == f.(domain := typed)
    ensures Domain !in r.1 || r.1[Domain] == []
    ensures r.1 == ClearShown(errors, Domain)
  {
    (f.(domain := typed), ClearShown(errors, Domain))
  }

  /** The company-name input: the name becomes what was typed, and its error is no longer shown. */
  function ChangeCompanyName(f: Form, errors: map<Field, string>, typed: string): (r: (Form, map<Field, string>))
    ensures r.0 == f.(companyName := typed)
    ensures CompanyName !in r.1 || r.1[CompanyName] == []
    ensures r.1 == ClearShown(errors, CompanyName)
  {
    (f.(companyName := typed), ClearShown(errors, CompanyName))
  }

  /**
   * The expiry input: the date becomes what was picked and its error is
   * blanked; `validateForm` never sets that error, so on maps it builds the
   * blanking changes nothing.
   */
  function ChangeExpiresAt(f: Form, errors: map<Field, string>, picked: string): (r: (Form, map<Field, string>))
    ensures r.0 == f.(expiresAt := picked)
    ensures r.1 == ClearShown(errors, ExpiresAt)
    ensures errors == FormErrors(f) ==> r.1 == errors
  {
    (f.(expiresAt := picked), ClearShown(errors, ExpiresAt))
  }

  /** The module checkbox's handler: the choice toggles, and the modules error is no longer shown. */
  function ModuleChecked(f: Form, errors: map<Field, string>, id: string): (r: (Form, map<Field, string>))
    ensures r.0 == f.(modules := ToggleModule(f.modules, id))
    ensures id in r.0.modules <==> id !in f.modules
    ensures Modules !in r.1 || r.1[Modules] == []
    ensures r.1 == ClearShown(errors, Modules)
  {
    (f.(modules := ToggleModule(f.modules, id)), ClearShown(errors, Modules))
  }

  /** Toggling a module that was not chosen, twice, gives back the same choice. */
  lemma ToggleTwice(modules: seq<string>, id: string)
    requires id !in modules
    ensures ToggleModule(ToggleModule(modules, id), id) == modules
  {
    var keep := (m: string) => m != id;
    assert ToggleModule(modules + [id], id) == Lists.Filter(modules + [id], keep);
    Lists.FilterAppend(modules, [id], keep);
    Lists.FilterAll(modules, keep);
    assert Lists.Filter([id], keep) == [];
  }

  /** The document-type selector: the type changes, the document and its error are cleared. */
  function ChangeDocumentType(f: Form, errors: map<Field, string>, t: Documents.DocumentType): (r: (Form, map<Field, string>))
    ensures r.0 == f.(documentType := t, document := [])
    ensures Document in r.1 && r.1[Document] == []
    ensures forall k :: k != Document ==> (k in r.1 <==> k in errors) && (k in errors ==> r.1[k] == errors[k])
  {
    (f.(documentType := t, document := []), errors[Document := []])
  }

  /** `handleDocumentChange`: the mask shared with the other forms, for the form's current type. */
  function HandleDocumentChange(f: Form, typed: string): (r: Form)
    ensures r == f.(document := Documents.OnDocumentInput(f.documentType, f.document, typed))
    ensures |OnlyDigits(typed)| > Documents.Length(f.documentType) ==> r == f
  {
    f.(document := Documents.OnDocumentInput(f.documentType, f.document, typed))
  }
}
