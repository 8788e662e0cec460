/**
 * The user dialog of `src/components/users/UserForm.tsx`, which both
 * creates a user (no `user` given) and edits one: its checks, the e-mail
 * pattern it tests, the contact list it edits, and the request its submit
 * hands to the user store.
 */
module UserForm {
  import opened Basics
  import opened Text
  import Lists
  import SupabaseAuth
  import UsersApi

  const NAME_REQUIRED: string := "Nome é obrigatório"
  const EMAIL_REQUIRED: string := "Email é obrigatório"
  const EMAIL_INVALID: string := "Email inválido"
  const PASSWORD_REQUIRED: string := "Senha é obrigatória"
  const PASSWORD_TOO_SHORT: string := "A senha deve ter pelo menos 6 caracteres"
  const SAVE_FAILED: string := "Erro ao salvar usuário. Tente novamente."
  const MIN_PASSWORD: nat := 6

  const EMAIL_TYPE: string := "email"
  const USER_TYPE: string := "user"
  const WHATSAPP_TYPE: string := "whatsapp"

  /** A piece of the pattern `[^\s@]+`: not empty, no white space and no `@`. */
  predicate EmailPart(s: string)
  {
    s != [] && forall i :: 0 <= i < |s| ==> !IsSpace(s[i]) && s[i] != '@'
  }

  /** `s` reads as `A@B.C` with the `@` at `at` and the `.` at `dot`, each piece an `EmailPart`. */
  predicate EmailSplit(s: string, at: nat, dot: nat)
  {
    && at < dot < |s|
    && s[at] == '@' && s[dot] == '.'
    && EmailPart(s[..at]) && EmailPart(s[at + 1..dot]) && EmailPart(s[dot + 1..])
  }

  /** `/^[^\s@]+@[^\s@]+\.[^\s@]+$/.test(s)` */
  ghost predicate MatchesEmail(s: string)
  {
    exists at: nat, dot: nat :: EmailSplit(s, at, dot)
  }

  predicate NoSpace(s: string) { forall i :: 0 <= i < |s| ==> !IsSpace(s[i]) }

  /**
   * The pattern test as a scan: no white space anywhere, a first `@` that
   * is not the first character and is the only one, and a `.` with at
   * least one character on each side between the `@` and the end.
   */
  predicate IsEmail(s: string)
  {
    && NoSpace(s)
    && IndexOf(s, '@').Some?
    && var at := IndexOf(s, '@').value;
       && at > 0 && IndexOf(s[at + 1..], '@').None?
       && at + 2 < |s| && IndexOf(s[at + 2..|s| - 1], '.').Some?
  }

  /** The scan accepts exactly the strings the pattern matches. */
  lemma IsEmailMatches(s: string)
    ensures IsEmail(s) <==> MatchesEmail(s)
  {
    if IsEmail(s) {
      EmailFound(s, IndexOf(s, '@').value);
    }
    forall at: nat, dot: nat | EmailSplit(s, at, dot) ensures IsEmail(s) {
      ScanOfSplit(s, at, dot);
    }
  }

  lemma EmailFound(s: string, at: nat)
    requires NoSpace(s) && 0 < at < |s| && s[at] == '@' && forall i :: 0 <= i < at ==> s[i] != '@'
    requires IndexOf(s[at + 1..], '@').None?
    requires at + 2 < |s| && IndexOf(s[at + 2..|s| - 1], '.').Some?
    ensures MatchesEmail(s)
  {
    var dot := at + 2 + IndexOf(s[at + 2..|s| - 1], '.').value;
    assert s[dot] == s[at + 2..|s| - 1][dot - at - 2];
    forall i | at < i < |s| ensures s[i] != '@' {
      assert s[i] == s[at + 1..][i - at - 1];
    }
    assert EmailSplit(s, at, dot);
  }

  /** A match passes the scan, with its `@` found first. */
  lemma ScanOfSplit(s: string, at: nat, dot: nat)
    requires EmailSplit(s, at, dot)
    ensures IndexOf(s, '@') == Some(at)
    ensures IsEmail(s)
  {
    SplitFacts(s, at, dot);
    var rest := s[at + 1..];
    forall j | 0 <= j < |rest| ensures rest[j] != '@' {
      assert rest[j] == s[at + 1 + j];
    }
    var inner := s[at + 2..|s| - 1];
    assert inner[dot - at - 2] == '.';
  }

  /** What a match says about each position of `s`. */
  lemma SplitFacts(s: string, at: nat, dot: nat)
    requires EmailSplit(s, at, dot)
    ensures 0 < at && at + 1 < dot && dot + 1 < |s|
    ensures NoSpace(s)
    ensures forall i :: 0 <= i < |s| && i != at ==> s[i] != '@'
  {
    var a, b, c := s[..at], s[at + 1..dot], s[dot + 1..];
    forall i | 0 <= i < |s| ensures !IsSpace(s[i]) && (i != at ==> s[i] != '@') {
      if i < at {
        assert s[i] == a[i];
      } else if at < i < dot {
        assert s[i] == b[i - at - 1];
      } else if dot < i {
        assert s[i] == c[i - dot - 1];
      }
    }
  }

  /** The keys of the dialog's error map. */
  datatype Field = Name | Email | Password | Submit

  /** A contact as the dialog holds it: its type and identifier. */
  type FormContact = UsersApi.ContactInput

  datatype Form = Form(
    name: string,
    email: string,
    password: string,
    role: SupabaseAuth.Role,
    contacts: seq<FormContact>,
    addEmailAsContact: bool)

  /** A stored contact as the dialog shows and resends it. */
  function AsInput(c: UsersApi.Contact): FormContact
  {
    UsersApi.ContactInput(c.contactType, c.identifier)
  }

  /**
   * The dialog's opening state: the user's name, e-mail, role and contacts
   * when editing, empty fields and the plain role when creating; no
   * password, and the e-mail offered as a contact.
   */
  function InitialForm(user: Option<UsersApi.User>): (f: Form)
    ensures f.password == [] && f.addEmailAsContact
    ensures user.None? ==> f == Form([], [], [], SupabaseAuth.UserRole, [], true)
    ensures user.Some? ==> f.name == user.value.name && f.email == user.value.email && f.role == user.value.role
    ensures user.Some? && user.value.contacts.Some? ==>
              |f.contacts| == |user.value.contacts.value|
              && forall i :: 0 <= i < |f.contacts| ==> f.contacts[i] == AsInput(user.value.contacts.value[i])
    ensures user.Some? && user.value.contacts.None? ==> f.contacts == []
  {
    match user
    case None => Form([], [], [], SupabaseAuth.UserRole, [], true)
    case Some(u) =>
      var contacts := if u.contacts.Some? then Lists.Map(u.contacts.value, AsInput) else [];
      Form(u.name, u.email, [], u.role, contacts, true)
  }

  /**
   * Whether `validateForm` flags field `k`: the name always, the e-mail
   * and the password only when creating.
   */
  predicate Fails(editing: bool, f: Form, k: Field)
  {
    match k
    case Name => Blank(f.name)
    case Email => !editing && !IsEmail(f.email)
    case Password => !editing && |f.password| < MIN_PASSWORD
    case Submit => false
  }

  function Message(f: Form, k: Field): string
  {
    match k
    case Name => NAME_REQUIRED
    case Email => if Blank(f.email) then EMAIL_REQUIRED else EMAIL_INVALID
    case Password => if f.password == [] then PASSWORD_REQUIRED else PASSWORD_TOO_SHORT
    case Submit => SAVE_FAILED
  }

  /** The error map `validateForm` sets: each flagged field with its message. */
  function FormErrors(editing: bool, f: Form): map<Field, string>
  {
    map k | k in {Name, Email, Password} && Fails(editing, f, k) :: Message(f, k)
  }

  predicate FormValid(editing: bool, f: Form)
  {
    !Blank(f.name) && (editing || (IsEmail(f.email) && |f.password| >= MIN_PASSWORD))
  }

  lemma FormErrorsEmpty(editing: bool, f: Form)
    ensures FormErrors(editing, f) == map[] <==> FormValid(editing, f)
  {
    var e := FormErrors(editing, f);
    if Blank(f.name) {
      assert Name in e;
    } else if !editing && !IsEmail(f.email) {
      assert Email in e;
    } else if !editing && |f.password| < MIN_PASSWORD {
      assert Password in e;
    }
  }

  /** A blank string fails the pattern, so the "required" message never hides a match. */
  lemma BlankIsNoEmail(s: string)
    ensures Blank(s) ==> !MatchesEmail(s) && !IsEmail(s)
  {
    forall at: nat, dot: nat | EmailSplit(s, at, dot) ensures !Blank(s) {
      SplitFacts(s, at, dot);
      assert !IsSpace(s[0]);
    }
    IsEmailMatches(s);
  }

  /** `validateForm()` for the dialog (`editing` is whether a `user` was given). */
  method ValidateForm(editing: bool, f: Form) returns (errors: map<Field, string>, ok: bool)
    ensures errors == FormErrors(editing, f)
    ensures ok <==> FormValid(editing, f)
  {
    BlankIsNoEmail(f.email);
    errors := map[];
    if Blank(f.name) {
      errors := errors[Name := NAME_REQUIRED];
    }
    if !editing && Blank(f.email) {
      errors := errors[Email := EMAIL_REQUIRED];
    } else if !editing && !IsEmail(f.email) {
      errors := errors[Email := EMAIL_INVALID];
    }
    if !editing && f.password == [] {
      errors := errors[Password := PASSWORD_REQUIRED];
    } else if !editing && |f.password| < MIN_PASSWORD {
      errors := errors[Password := PASSWORD_TOO_SHORT];
    }
    var expected := FormErrors(editing, f);
    forall k | k in expected ensures k in errors && errors[k] == expected[k] {
      assert Fails(editing, f, k);
    }
    forall k | k in errors ensures k in expected {
    }
    Lists.MapsEqual(errors, expected);
    ok := |errors| == 0;
    FormErrorsEmpty(editing, f);
  }

  predicate NotUserType(c: FormContact) { c.contactType != USER_TYPE }

  /**
   * The contacts an edit sends: the listed ones except those of type
   * `user`, in order, then the user's stored e-mail when the box is ticked.
   */
  function EditContacts(contacts: seq<FormContact>, addEmail: bool, email: string): (r: seq<FormContact>)
    ensures forall c :: c in r ==> c.contactType != USER_TYPE
    ensures forall c :: c in contacts && c.contactType != USER_TYPE ==> c in r
    ensures addEmail ==> |r| > 0 && r[|r| - 1] == UsersApi.ContactInput(EMAIL_TYPE, email)
    ensures Lists.IsSubsequence(if addEmail then r[..|r| - 1] else r, contacts)
    ensures forall c :: multiset(if addEmail then r[..|r| - 1] else r)[c] ==
                        if c.contactType != USER_TYPE then multiset(contacts)[c] else 0
  {
    var kept := Lists.Filter(contacts, NotUserType);
    assert forall c :: multiset(kept)[c] == if c.contactType != USER_TYPE then multiset(contacts)[c] else 0 by {
      forall c ensures multiset(kept)[c] == if c.contactType != USER_TYPE then multiset(contacts)[c] else 0 {
        Lists.FilterMultiset(contacts, NotUserType, c);
      }
    }
    if addEmail then
      assert (kept + [UsersApi.ContactInput(EMAIL_TYPE, email)])[..|kept|] == kept;
      kept + [UsersApi.ContactInput(EMAIL_TYPE, email)]
    else kept
  }

  function IsContact(e: FormContact): FormContact -> bool { (c: FormContact) => c == e }

  /**
   * Saving a user whose list already holds the e-mail contact, with the box
   * ticked as it is by default, sends that contact once more.
   */
  lemma EditRepeatsEmail(contacts: seq<FormContact>, email: string)
    ensures var e := UsersApi.ContactInput(EMAIL_TYPE, email);
            Lists.Count(EditContacts(contacts, true, email), IsContact(e)) == Lists.Count(contacts, IsContact(e)) + 1
  {
    var e := UsersApi.ContactInput(EMAIL_TYPE, email);
    var kept := Lists.Filter(contacts, NotUserType);
    FilterKeepsEmail(contacts, e);
    Lists.FilterAppend(kept, [e], IsContact(e));
    assert Lists.Filter([e], IsContact(e)) == [e];
  }

  /** Dropping the `user` contacts keeps every copy of an e-mail contact. */
  lemma {:induction false} FilterKeepsEmail(contacts: seq<FormContact>, e: FormContact)
    requires e.contactType == EMAIL_TYPE
    ensures Lists.Count(Lists.Filter(contacts, NotUserType), IsContact(e)) == Lists.Count(contacts, IsContact(e))
  {
    if contacts != [] {
      FilterKeepsEmail(contacts[1..], e);
    }
  }

  /** The contacts a creation sends: the new e-mail when the box is ticked, none otherwise. */
  function CreateContacts(addEmail: bool, email: string): (r: seq<FormContact>)
    ensures addEmail <==> r != []
    ensures addEmail ==> r == [UsersApi.ContactInput(EMAIL_TYPE, email)]
  {
    if addEmail then [UsersApi.ContactInput(EMAIL_TYPE, email)] else []
  }

  /** What the dialog's submit hands to the user store. */
  datatype Submission =
    | UpdateUser(id: string, update: UsersApi.UpdateUserRequest)
    | CreateUser(create: UsersApi.CreateUserRequest)

  /**
   * The store call of a passing submit: an edit updates name, role and
   * contacts of that user; a creation sends every field.
   */
  function SubmitRequest(user: Option<UsersApi.User>, f: Form): (s: Submission)
    ensures s.UpdateUser? <==> user.Some?
    ensures user.Some? ==> s == UpdateUser(user.value.id, UsersApi.UpdateUserRequest(
              Some(f.name), Some(f.role), Some(EditContacts(f.contacts, f.addEmailAsContact, user.value.email))))
    ensures user.None? ==> s == CreateUser(UsersApi.CreateUserRequest(
              f.email, f.name, f.role, f.password, Some(CreateContacts(f.addEmailAsContact, f.email))))
  {
    match user
    case Some(u) =>
      UpdateUser(u.id, UsersApi.UpdateUserRequest(
        Some(f.name), Some(f.role), Some(EditContacts(f.contacts, f.addEmailAsContact, u.email))))
    case None =>
      CreateUser(UsersApi.CreateUserRequest(
        f.email, f.name, f.role, f.password, Some(CreateContacts(f.addEmailAsContact, f.email))))
  }

  /**
   * `handleSubmit`, given how the store call settles: a failing form only
   * shows its errors; otherwise the store is called, and the dialog closes
   * on success or adds the generic message under `submit`.
   */
  method HandleSubmit(user: Option<UsersApi.User>, f: Form, outcome: Result<UsersApi.User>)
    returns (errors: map<Field, string>, sent: Option<Submission>, closed: bool)
    ensures sent.Some? <==> FormValid(user.Some?, f)
    ensures sent.Some? ==> sent.value == SubmitRequest(user, f)
    ensures closed <==> sent.Some? && outcome.Ok?
    ensures sent.None? || outcome.Ok? ==> errors == FormErrors(user.Some?, f)
    ensures sent.Some? && outcome.Threw? ==> errors == FormErrors(user.Some?, f)[Submit := SAVE_FAILED]
  {
    var ok;
    errors, ok := ValidateForm(user.Some?, f);
    if !ok {
      return errors, None, false;
    }
    sent := Some(SubmitRequest(user, f));
    closed := outcome.Ok?;
    if outcome.Threw? {
      errors := errors[Submit := SAVE_FAILED];
    }
  }

  /** The contact being typed in, as the dialog resets it. */
  const EMPTY_DRAFT: FormContact := UsersApi.ContactInput(WHATSAPP_TYPE, "")

  /**
   * `addContact()`: a blank identifier does nothing; otherwise the draft is
   * appended as it is and replaced by an empty WhatsApp draft.
   */
  function AddContact(contacts: seq<FormContact>, draft: FormContact): (r: (seq<FormContact>, FormContact))
    ensures Blank(draft.identifier) ==> r == (contacts, draft)
    ensures !Blank(draft.identifier) ==> r.0 == contacts + [draft] && r.1 == EMPTY_DRAFT
  {
    if Blank(draft.identifier) then (contacts, draft) else (contacts + [draft], EMPTY_DRAFT)
  }

  /** `contacts.filter((_, i) => i !== index)` */
  function RemoveContact(contacts: seq<FormContact>, index: int): (r: seq<FormContact>)
    decreases |contacts|
  {
    if contacts == [] then []
    else if index == 0 then contacts[1..]
    else [contacts[0]] + RemoveContact(contacts[1..], index - 1)
  }

  /** Removing drops exactly the entry at `index`, and an index outside the list drops nothing. */
  lemma {:induction false} RemoveContactAt(contacts: seq<FormContact>, index: int)
    ensures 0 <= index < |contacts| ==> RemoveContact(contacts, index) == contacts[..index] + contacts[index + 1..]
    ensures !(0 <= index < |contacts|) ==> RemoveContact(contacts, index) == contacts
    decreases |contacts|
  {
    if contacts != [] && index != 0 {
      RemoveContactAt(contacts[1..], index - 1);
      if 0 < index < |contacts| {
        assert contacts[1..][..index - 1] == contacts[1..index];
        assert contacts[1..][index..] == contacts[index + 1..];
        assert [contacts[0]] + contacts[1..index] == contacts[..index];
      } else {
        assert [contacts[0]] + contacts[1..] == contacts;
      }
    }
  }

  /** Adding a contact and removing the last entry gives back the list. */
  lemma AddThenRemove(contacts: seq<FormContact>, draft: FormContact)
    ensures RemoveContact(AddContact(contacts, draft).0, |AddContact(contacts, draft).0| - 1) == contacts
            || Blank(draft.identifier)
  {
    if !Blank(draft.identifier) {
      var added := contacts + [draft];
      RemoveContactAt(added, |added| - 1);
      assert added[..|contacts|] == contacts;
    }
  }
}
