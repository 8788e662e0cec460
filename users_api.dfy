/**
 * The user service of `src/services/api/users.ts`: how `findAll` prepares
 * each user's contacts (hidden ones dropped, the rest in ascending
 * `display_order`, ties in their original order), which rows `create` writes
 * and which of its steps may fail silently, and how `update` reports every
 * failure with one message.
 *
 * The tenant id, the backend responses and the session are inputs.
 */
module UsersApi {
  import opened Basics
  import Lists
  import SupabaseAuth
  import NotificationsApi

  const FIND_ALL_ERROR: string := "Não foi possível buscar os usuários"
  const SIGN_UP_ERROR: string := "Não foi possível criar o usuário"
  const CREATE_ERROR: string := "Erro ao criar usuário"
  const UPDATE_ERROR: string := "Não foi possível atualizar o usuário"
  const WELCOME_TITLE: string := "Bem-vindo ao Finance AI"
  const WELCOME_MESSAGE: string := "Sua conta foi criada com sucesso. Explore todas as funcionalidades disponíveis."

  /**
   * A contact row: `hidden` is whether `metadata?.hidden` is truthy, and
   * `displayOrder` is the column, which may be null.
   */
  datatype Contact = Contact(contactType: string, identifier: string, hidden: bool, displayOrder: Option<int>)

  /** A profile row, with its contacts when the query embeds them. */
  datatype User = User(
    id: string,
    email: string,
    name: string,
    avatarUrl: Option<string>,
    role: SupabaseAuth.Role,
    tenantId: string,
    createdAt: string,
    contacts: Option<seq<Contact>>)

  /** `(c.display_order || 0)` */
  function Key(c: Contact): int
  {
    if c.displayOrder.Some? then c.displayOrder.value else 0
  }

  predicate Sorted(cs: seq<Contact>)
  {
    forall i, j :: 0 <= i < j < |cs| ==> Key(cs[i]) <= Key(cs[j])
  }

  /** Insert `x` before the first element whose key is not smaller, so it precedes its equals. */
  function Insert(x: Contact, s: seq<Contact>): (r: seq<Contact>)
    ensures |r| == |s| + 1
    ensures multiset(r) == multiset(s) + multiset{x}
  {
    if s == [] then [x]
    else if Key(x) <= Key(s[0]) then [x] + s
    else
      assert s == [s[0]] + s[1..];
      [s[0]] + Insert(x, s[1..])
  }

  lemma {:induction false} InsertSorted(x: Contact, s: seq<Contact>)
    requires Sorted(s)
    ensures Sorted(Insert(x, s))
  {
    if s != [] && Key(x) > Key(s[0]) {
      var t := Insert(x, s[1..]);
      InsertSorted(x, s[1..]);
      forall j | 0 <= j < |t|
        ensures Key(s[0]) <= Key(t[j])
      {
        assert t[j] in multiset(t);
        if t[j] != x {
          assert t[j] in multiset(s[1..]);
          var k :| 0 <= k < |s[1..]| && s[1..][k] == t[j];
          assert s[k + 1] == t[j];
        }
      }
      var r := [s[0]] + t;
      forall i, j | 0 <= i < j < |r|
        ensures Key(r[i]) <= Key(r[j])
      {
        if i > 0 {
          assert r[i] == t[i - 1] && r[j] == t[j - 1];
        } else {
          assert r[j] == t[j - 1];
        }
      }
    }
  }

  /**
   * `.sort((a, b) => (a.display_order || 0) - (b.display_order || 0))`,
   * which is stable: an insertion sort.
   */
  function SortByOrder(cs: seq<Contact>): (r: seq<Contact>)
    ensures |r| == |cs|
    ensures Sorted(r)
    ensures multiset(r) == multiset(cs)
  {
    if cs == [] then []
    else
      assert cs == [cs[0]] + cs[1..];
      InsertSorted(cs[0], SortByOrder(cs[1..]));
      Insert(cs[0], SortByOrder(cs[1..]))
  }

  function WithKey(k: int): Contact -> bool { (c: Contact) => Key(c) == k }

  lemma {:induction false} InsertWithKey(x: Contact, s: seq<Contact>, k: int)
    requires Sorted(s)
    ensures Lists.Filter(Insert(x, s), WithKey(k)) == (if Key(x) == k then [x] else []) + Lists.Filter(s, WithKey(k))
  {
    if s == [] {
    } else if Key(x) <= Key(s[0]) {
      assert ([x] + s)[1..] == s;
    } else {
      InsertWithKey(x, s[1..], k);
      assert ([s[0]] + Insert(x, s[1..]))[1..] == Insert(x, s[1..]);
    }
  }

  /**
   * The sort is stable: the contacts of any one display order come out in
   * the order they went in. With `Sorted` and the multiset equality, this
   * pins the result down completely.
   */
  lemma {:induction false} SortStable(cs: seq<Contact>, k: int)
    ensures Lists.Filter(SortByOrder(cs), WithKey(k)) == Lists.Filter(cs, WithKey(k))
  {
    if cs != [] {
      SortStable(cs[1..], k);
      InsertWithKey(cs[0], SortByOrder(cs[1..]), k);
    }
  }

  predicate Visible(c: Contact) { !c.hidden }

  /**
   * `profile.contacts?.filter(c => !c.metadata?.hidden)?.sort(…) || []`:
   * exactly the visible contacts, by ascending display order.
   */
  function PrepareContacts(contacts: Option<seq<Contact>>): (r: seq<Contact>)
    ensures contacts.None? ==> r == []
    ensures forall c :: c in r ==> !c.hidden
    ensures Sorted(r)
    ensures contacts.Some? ==> multiset(r) == multiset(Lists.Filter(contacts.value, Visible))
    ensures contacts.Some? ==> forall c :: c in contacts.value && !c.hidden ==> c in r
  {
    if contacts.None? then []
    else
      var kept := Lists.Filter(contacts.value, Visible);
      var r := SortByOrder(kept);
      forall c | c in r
        ensures !c.hidden
      {
        assert c in multiset(kept);
      }
      forall c | c in contacts.value && !c.hidden
        ensures c in r
      {
        var i :| 0 <= i < |contacts.value| && contacts.value[i] == c;
        assert c in kept;
        assert c in multiset(r);
      }
      r
  }

  /** `{ ...profile, contacts: … }` */
  function WithPreparedContacts(u: User): User
  {
    u.(contacts := Some(PrepareContacts(u.contacts)))
  }

  /** `findAll()`, given the response of the tenant's profile query. */
  function FindAll(q: Rows<User>): (r: Result<seq<User>>)
    ensures q.RowsError? ==> r == Fail(FIND_ALL_ERROR)
    ensures q.Rows? && q.data.None? ==> r == Ok([])
    ensures q.Rows? && q.data.Some? ==>
              r.Ok? && |r.value| == |q.data.value|
              && forall i :: 0 <= i < |r.value| ==> r.value[i] == WithPreparedContacts(q.data.value[i])
  {
    match q
    case RowsError(_) => Fail(FIND_ALL_ERROR)
    case Rows(data) =>
      if data.None? then Ok([])
      else Ok(seq(|data.value|, i requires 0 <= i < |data.value| => WithPreparedContacts(data.value[i])))
  }

  /** A contact as a form submits it. */
  datatype ContactInput = ContactInput(contactType: string, identifier: string)

  datatype CreateUserRequest = CreateUserRequest(
    email: string, name: string, role: SupabaseAuth.Role, password: string, contacts: Option<seq<ContactInput>>)

  /** A row `create` inserts into `contacts`. */
  datatype ContactRow = ContactRow(tenantId: string, ownerId: string, contactType: string, identifier: string, name: string)

  /** `data.contacts.map(contact => ({ tenant_id, owner_id, type, identifier, name: data.name }))` */
  function ContactRows(tenantId: string, ownerId: string, name: string, contacts: seq<ContactInput>): (rows: seq<ContactRow>)
    ensures |rows| == |contacts|
    ensures forall i :: 0 <= i < |contacts| ==>
              rows[i] == ContactRow(tenantId, ownerId, contacts[i].contactType, contacts[i].identifier, name)
  {
    if contacts == [] then []
    else [ContactRow(tenantId, ownerId, contacts[0].contactType, contacts[0].identifier, name)]
         + ContactRows(tenantId, ownerId, name, contacts[1..])
  }

  /** How the account sign-up settled. */
  datatype SignUpOutcome = SignUpFailed(error: Thrown) | SignUpNoUser | SignedUp(userId: string)

  /** What `create` wrote and how it settled. */
  datatype CreateRun = CreateRun(
    contactRows: Option<seq<ContactRow>>,
    welcome: Option<NotificationsApi.CreateNotification>,
    result: Result<User>)

  /**
   * `create(data)` once the tenant id is resolved, given the sign-up
   * outcome and the response of the profile fetch. The contact insert and
   * the welcome notification are attempted, and their failures (the last
   * two parameters) are ignored.
   */
  function Create(tenantId: string, data: CreateUserRequest, signUp: SignUpOutcome, profile: Result<User>,
                  contactsError: Option<Thrown>, welcomeResult: Result<NotificationsApi.Notification>): (r: CreateRun)
    ensures signUp.SignUpFailed? ==> r == CreateRun(None, None, Fail(SIGN_UP_ERROR))
    ensures signUp.SignUpNoUser? ==> r == CreateRun(None, None, Fail(CREATE_ERROR))
    ensures signUp.SignedUp? && profile.Threw? ==> r == CreateRun(None, None, Fail(CREATE_ERROR))
    ensures r.result.Ok? <==> signUp.SignedUp? && profile.Ok?
    ensures r.result.Ok? ==>
              && r.result == profile
              && r.welcome == Some(NotificationsApi.CreateNotification(WELCOME_TITLE, WELCOME_MESSAGE, NotificationsApi.Success, signUp.userId))
              && (r.contactRows.Some? <==> data.contacts.Some? && data.contacts.value != [])
              && (r.contactRows.Some? ==>
                    |r.contactRows.value| == |data.contacts.value|
                    && forall i :: 0 <= i < |data.contacts.value| ==>
                         r.contactRows.value[i].tenantId == tenantId
                         && r.contactRows.value[i].ownerId == signUp.userId
                         && r.contactRows.value[i].name == data.name)
  {
    match signUp
    case SignUpFailed(_) => CreateRun(None, None, Fail(SIGN_UP_ERROR))
    case SignUpNoUser => CreateRun(None, None, Fail(CREATE_ERROR))
    case SignedUp(userId) =>
      if profile.Threw? then CreateRun(None, None, Fail(CREATE_ERROR))
      else
        var rows :=
          if data.contacts.Some? && data.contacts.value != [] then Some(ContactRows(tenantId, userId, data.name, data.contacts.value))
          else None;
        var welcome := NotificationsApi.CreateNotification(WELCOME_TITLE, WELCOME_MESSAGE, NotificationsApi.Success, userId);
        CreateRun(rows, Some(welcome), profile)
  }

  datatype UpdateUserRequest = UpdateUserRequest(
    name: Option<string>, role: Option<SupabaseAuth.Role>, contacts: Option<seq<ContactInput>>)

  /** The arguments of the `update_profile` call. */
  datatype ProfileUpdate = ProfileUpdate(id: string, name: Option<string>, role: Option<SupabaseAuth.Role>)

  /** The calls `update` made and how it settled. */
  datatype UpdateRun = UpdateRun(
    profileUpdate: Option<ProfileUpdate>,
    contactsUpdate: Option<seq<ContactInput>>,
    result: Result<User>)

  /**
   * `update(id, data)`, given the responses of the profile lookup, of the
   * `update_profile` call and of the final fetch. The contacts call is made
   * only for a non-empty list and its outcome is not looked at. Every
   * failure is thrown as the same fixed message.
   */
  function Update(id: string, data: UpdateUserRequest, lookup: Result<Option<User>>,
                  updateError: Option<Thrown>, finalFetch: Result<User>): (r: UpdateRun)
    ensures r.result.Threw? ==> r.result.thrown == ErrorObj(UPDATE_ERROR)
    ensures r.profileUpdate.Some? <==> lookup.Ok? && lookup.value.Some?
    ensures r.profileUpdate.Some? ==> r.profileUpdate.value == ProfileUpdate(id, data.name, data.role)
    ensures r.contactsUpdate.Some? <==>
              lookup.Ok? && lookup.value.Some? && updateError.None? && data.contacts.Some? && data.contacts.value != []
    ensures r.contactsUpdate.Some? ==> r.contactsUpdate == data.contacts
    ensures r.result.Ok? <==> lookup.Ok? && lookup.value.Some? && updateError.None? && finalFetch.Ok?
    ensures r.result.Ok? ==> r.result == finalFetch
  {
    if lookup.Threw? || lookup.value.None? then UpdateRun(None, None, Fail(UPDATE_ERROR))
    else
      var call := Some(ProfileUpdate(id, data.name, data.role));
      if updateError.Some? then UpdateRun(call, None, Fail(UPDATE_ERROR))
      else
        var contacts := if data.contacts.Some? && data.contacts.value != [] then data.contacts else None;
        UpdateRun(call, contacts, ReplaceError(finalFetch, UPDATE_ERROR))
  }
}
