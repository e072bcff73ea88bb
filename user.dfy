/**
 * The user provider (lib/puppet/provider/mongodb_user/mongodb.rb): listing users,
 * matching them to resources, and the commands that create, drop and re-role a user.
 */
module User {

  import opened Wrappers
  import opened Text
  import opened Collections
  import opened Ensurable
  import opened Command

  // ---------------------------------------------------------------- to_json

  /** `to_json` of a String with nothing to escape. */
  function JsonString(s: string): string {
    "\"" + s + "\""
  }

  function JsonItems(xs: seq<string>): string {
    if xs == [] then ""
    else if |xs| == 1 then JsonString(xs[0])
    else JsonString(xs[0]) + "," + JsonItems(xs[1..])
  }

  /** `to_json` of an Array of Strings. */
  function JsonArray(xs: seq<string>): string {
    "[" + JsonItems(xs) + "]"
  }

  /** Reads `"a","b",...` back. */
  function ReadItems(s: string): Option<seq<string>>
    decreases |s|
  {
    if s == [] then Some([])
    else match After(s, "\"")
      case None => None
      case Some(t) => match UntilQuote(t)
        case None => None
        case Some((x, rest)) =>
          if rest == [] then Some([x])
          else if rest[0] != ',' then None
          else match ReadItems(rest[1..])
            case None => None
            case Some(xs) => Some([x] + xs)
  }

  /** Reads a JSON array of strings back. */
  function ReadArray(s: string): Option<seq<string>> {
    match After(s, "[")
    case None => None
    case Some(t) => if t == [] || t[|t| - 1] != ']' then None else ReadItems(t[..|t| - 1])
  }

  lemma ReadItemSteps(x: string, rest: string)
    requires '"' !in x
    ensures After(JsonString(x) + rest, "\"") == Some(x + "\"" + rest)
    ensures UntilQuote(x + "\"" + rest) == Some((x, rest))
  {
    assert JsonString(x) + rest == "\"" + (x + "\"" + rest);
    AfterConcat("\"", x + "\"" + rest);
    UntilQuoteOf(x, rest);
  }

  lemma ReadLastItem(x: string)
    requires '"' !in x
    ensures ReadItems(JsonString(x)) == Some([x])
  {
    ReadItemSteps(x, "");
    assert JsonString(x) + "" == JsonString(x);
  }

  lemma ReadNextItem(x: string, more: seq<string>)
    requires '"' !in x && more != []
    requires ReadItems(JsonItems(more)) == Some(more)
    ensures ReadItems(JsonString(x) + ("," + JsonItems(more))) == Some([x] + more)
  {
    ReadItemSteps(x, "," + JsonItems(more));
    assert ("," + JsonItems(more))[1..] == JsonItems(more);
  }

  lemma {:induction false} ReadItemsOf(xs: seq<string>)
    requires forall x :: x in xs ==> '"' !in x
    ensures ReadItems(JsonItems(xs)) == Some(xs)
  {
    if |xs| == 1 {
      assert xs[0] in xs;
      ReadLastItem(xs[0]);
      assert [xs[0]] == xs;
    } else if |xs| > 1 {
      assert xs[0] in xs;
      ReadItemsOf(xs[1..]);
      assert JsonItems(xs) == JsonString(xs[0]) + ("," + JsonItems(xs[1..]));
      ReadNextItem(xs[0], xs[1..]);
      assert [xs[0]] + xs[1..] == xs;
    }
  }

  /** A list of names with no `"` in them survives `to_json` and reading back. */
  lemma JsonArrayRoundTrip(xs: seq<string>)
    requires forall x :: x in xs ==> '"' !in x
    ensures ReadArray(JsonArray(xs)) == Some(xs)
  {
    var body := JsonItems(xs) + "]";
    assert JsonArray(xs) == "[" + body;
    AfterConcat("[", body);
    assert body[..|body| - 1] == JsonItems(xs);
    ReadItemsOf(xs);
  }

  // ---------------------------------------------------------------- from_roles

  /** An entry of a user's `roles` on 2.6 and later: `{role: ..., db: ...}`. */
  datatype RoleEntry = RoleEntry(role: string, db: string)

  /** How `from_roles` shows one entry: the bare role in the user's own database, `role@db` elsewhere. */
  function RenderRole(e: RoleEntry, userDb: Option<string>): string {
    if Some(e.db) == userDb then e.role else e.role + "@" + e.db
  }

  function RenderAll(roles: seq<RoleEntry>, userDb: Option<string>): (r: seq<string>)
    ensures |r| == |roles| && forall i :: 0 <= i < |roles| ==> r[i] == RenderRole(roles[i], userDb)
  {
    if roles == [] then [] else [RenderRole(roles[0], userDb)] + RenderAll(roles[1..], userDb)
  }

  /**
   * `from_roles`: every entry rendered, then sorted. The result is sorted, has one
   * name per entry, and holds exactly the rendered entries, duplicates included.
   */
  function FromRoles(roles: seq<RoleEntry>, userDb: Option<string>): (r: seq<string>)
    ensures Sorted(r) && |r| == |roles|
    ensures multiset(r) == multiset(RenderAll(roles, userDb))
    ensures forall x :: x in r <==> exists i :: 0 <= i < |roles| && x == RenderRole(roles[i], userDb)
  {
    var rendered := RenderAll(roles, userDb);
    var r := Sort(rendered);
    assert forall x :: x in r <==> x in multiset(rendered);
    r
  }

  /** The way a `role@db` name is meant to be read back: the role and its database. */
  function ParseRole(name: string, userDb: string): RoleEntry {
    match IndexOf(name, '@')
    case None => RoleEntry(name, userDb)
    case Some(k) => RoleEntry(name[..k], name[k + 1..])
  }

  /** A role name without `@` renders to a name that reads back as the same entry. */
  lemma RenderRoleRoundTrip(e: RoleEntry, userDb: string)
    requires '@' !in e.role
    ensures ParseRole(RenderRole(e, Some(userDb)), userDb) == e
  {
    if e.db != userDb {
      var s := e.role + "@" + e.db;
      assert s[|e.role|] == '@' && s[..|e.role|] == e.role && s[|e.role| + 1..] == e.db;
    }
  }

  lemma {:induction false} RenderAllConcat(a: seq<RoleEntry>, b: seq<RoleEntry>, userDb: Option<string>)
    ensures RenderAll(a + b, userDb) == RenderAll(a, userDb) + RenderAll(b, userDb)
  {
    var l, r := RenderAll(a + b, userDb), RenderAll(a, userDb) + RenderAll(b, userDb);
    assert |l| == |r|;
    forall i | 0 <= i < |l| ensures l[i] == r[i] {
      if i < |a| { assert (a + b)[i] == a[i]; } else { assert (a + b)[i] == b[i - |a|]; }
    }
  }

  lemma RemoveAt(b: seq<RoleEntry>, j: nat)
    requires j < |b|
    ensures multiset(b[..j] + b[j + 1..]) == multiset(b) - multiset{b[j]}
  {
    assert b == b[..j] + [b[j]] + b[j + 1..];
  }

  /** Rendering the array without its `j`-th entry loses exactly that entry's name. */
  lemma RenderAllRemoveAt(b: seq<RoleEntry>, j: nat, userDb: Option<string>)
    requires j < |b|
    ensures multiset(RenderAll(b, userDb)) == multiset{RenderRole(b[j], userDb)} + multiset(RenderAll(b[..j] + b[j + 1..], userDb))
  {
    assert b == b[..j] + [b[j]] + b[j + 1..];
    RenderAllConcat(b[..j] + [b[j]], b[j + 1..], userDb);
    RenderAllConcat(b[..j], [b[j]], userDb);
    RenderAllConcat(b[..j], b[j + 1..], userDb);
  }

  lemma TailPermutation(a: seq<RoleEntry>, b: seq<RoleEntry>, j: nat)
    requires a != [] && j < |b| && b[j] == a[0] && multiset(a) == multiset(b)
    ensures multiset(a[1..]) == multiset(b[..j] + b[j + 1..])
  {
    RemoveAt(b, j);
    assert a == [a[0]] + a[1..];
    assert multiset(a[1..]) == multiset(a) - multiset{a[0]};
  }

  lemma RenderAllHead(a: seq<RoleEntry>, userDb: Option<string>)
    requires a != []
    ensures multiset(RenderAll(a, userDb)) == multiset{RenderRole(a[0], userDb)} + multiset(RenderAll(a[1..], userDb))
  {
    assert RenderAll(a, userDb) == [RenderRole(a[0], userDb)] + RenderAll(a[1..], userDb);
  }

  lemma {:induction false} RenderAllMultiset(a: seq<RoleEntry>, b: seq<RoleEntry>, userDb: Option<string>)
    requires multiset(a) == multiset(b)
    ensures multiset(RenderAll(a, userDb)) == multiset(RenderAll(b, userDb))
    decreases |a|
  {
    if a == [] {
      assert |b| == |multiset(b)| == 0;
    } else {
      assert a[0] in multiset(b);
      var j :| 0 <= j < |b| && b[j] == a[0];
      TailPermutation(a, b, j);
      RenderAllMultiset(a[1..], b[..j] + b[j + 1..], userDb);
      RenderAllRemoveAt(b, j, userDb);
      RenderAllHead(a, userDb);
    }
  }

  /** `from_roles` does not depend on the order in which the server lists the roles. */
  lemma FromRolesPermutationInvariant(a: seq<RoleEntry>, b: seq<RoleEntry>, userDb: Option<string>)
    requires multiset(a) == multiset(b)
    ensures FromRoles(a, userDb) == FromRoles(b, userDb)
  {
    RenderAllMultiset(a, b, userDb);
    SortEqualIffPermutation(RenderAll(a, userDb), RenderAll(b, userDb));
  }

  // ---------------------------------------------------------------- instances

  /** A document of `db.system.users` on 2.4: `_id`, `user`, `roles` and `pwd`, None where absent. */
  datatype LegacyUserDoc = LegacyUserDoc(id: Option<string>, user: Option<string>, roles: Option<seq<string>>, pwd: Option<string>)

  /** A document of `db.system.users` on 2.6 and later; `credentials` maps mechanisms to hashes. */
  datatype ModernUserDoc = ModernUserDoc(
    id: Option<string>, user: Option<string>, db: Option<string>,
    roles: Option<seq<RoleEntry>>, credentials: Option<map<string, string>>)

  /** A provider's `@property_hash`; None where a key is absent. */
  datatype UserProps = UserProps(
    name: Option<string>, ensure: Option<Ensure>, username: Option<string>,
    database: Option<string>, roles: Option<seq<string>>, passwordHash: Option<string>)

  const NoUserProps := UserProps(None, None, None, None, None, None)

  /** The exceptions listing can end with: a method called on nil, or one passed on from `mongo_command`. */
  datatype UserError = NoMethod(field: string) | Propagated(message: string)

  const DatabasesQuery := Invocation("db.getMongo().getDBs()[\"databases\"]" + ".map(function(db){return db[\"name\"]})", Hash(Defaults))

  /** The users query of the 2.4 listing: in database `db`, with 5 retries. */
  function LegacyUsersQuery(db: string): Invocation {
    Invocation("db.system.users.find().toArray()", Hash(Defaults.(db := Some(db), retries := Count(5))))
  }

  const ModernUsersQuery := Invocation("db.system.users.find().toArray()", Hash(Defaults.(retries := Count(5))))

  /** Ruby's `collect` with a block that may raise: the first exception ends it. */
  function Collect<A, B, E>(f: A -> Result<B, E>, xs: seq<A>): Result<seq<B>, E> {
    if xs == [] then Ok([])
    else match f(xs[0])
      case Err(e) => Err(e)
      case Ok(y) =>
        match Collect(f, xs[1..])
        case Err(e) => Err(e)
        case Ok(ys) => Ok([y] + ys)
  }

  /** `collect` raises iff its block raises on some element. */
  lemma {:induction false} CollectOkIff<A, B, E>(f: A -> Result<B, E>, xs: seq<A>)
    ensures Collect(f, xs).Ok? <==> forall i :: 0 <= i < |xs| ==> f(xs[i]).Ok?
  {
    if xs != [] {
      CollectOkIff(f, xs[1..]);
      assert forall i :: 1 <= i < |xs| ==> xs[1..][i - 1] == xs[i];
    }
  }

  /** A `collect` that succeeds holds the block's value for each element, in order. */
  lemma {:induction false} CollectPointwise<A, B, E>(f: A -> Result<B, E>, xs: seq<A>)
    requires Collect(f, xs).Ok?
    ensures var ys := Collect(f, xs).value;
            |ys| == |xs| && forall i :: 0 <= i < |xs| ==> f(xs[i]) == Ok(ys[i])
  {
    if xs != [] {
      CollectPointwise(f, xs[1..]);
      var ys := Collect(f, xs).value;
      var rest := Collect(f, xs[1..]).value;
      assert ys == [ys[0]] + rest;
      forall i | 1 <= i < |xs| ensures f(xs[i]) == Ok(ys[i]) {
        assert xs[i] == xs[1..][i - 1] && ys[i] == rest[i - 1];
      }
    }
  }

  /** One user of database `db` on 2.4: its roles are sorted; `nil.sort` raises when it has none. */
  function LegacyUser(db: string, doc: LegacyUserDoc): Result<UserProps, UserError> {
    match doc.roles
    case None => Err(NoMethod("roles"))
    case Some(roles) => Ok(UserProps(doc.id, Some(Present), doc.user, Some(db), Some(Sort(roles)), doc.pwd))
  }

  /** `users.collect` over one database's users on 2.4. */
  function LegacyUsers(db: string, docs: seq<LegacyUserDoc>): Result<seq<UserProps>, UserError> {
    Collect(d => LegacyUser(db, d), docs)
  }

  /** The 2.4 listing over databases `dbs`: every user found, database by database, and the queries made. */
  function LegacyListing(dbs: seq<string>, usersIn: string -> Reply<seq<LegacyUserDoc>>)
    : (Result<seq<UserProps>, UserError>, seq<Invocation>)
  {
    if dbs == [] then (Ok([]), [])
    else
      var first := LegacyUsersQuery(dbs[0]);
      match usersIn(dbs[0])
      case ExecFailure(m) => (Err(Propagated(m)), [first])
      case OtherFailure(m) => (Err(Propagated(m)), [first])
      case Answer(docs) =>
        match LegacyUsers(dbs[0], docs)
        case Err(e) => (Err(e), [first])
        case Ok(us) =>
          var (rest, cmds) := LegacyListing(dbs[1..], usersIn);
          (if rest.Ok? then Ok(us + rest.value) else rest, [first] + cmds)
  }

  /** What a 2.4 listing holds: present users whose roles are sorted and whose database is one that was listed. */
  predicate LegacyShaped(u: UserProps, dbs: seq<string>) {
    && u.ensure == Some(Present)
    && u.roles.Some? && Sorted(u.roles.value)
    && u.database.Some? && u.database.value in dbs
  }

  lemma LegacyUsersShaped(db: string, docs: seq<LegacyUserDoc>)
    ensures var r := LegacyUsers(db, docs);
            r.Ok? ==> |r.value| == |docs| && forall i :: 0 <= i < |r.value| ==> LegacyShaped(r.value[i], [db])
  {
    var f := d => LegacyUser(db, d);
    if Collect(f, docs).Ok? {
      CollectPointwise(f, docs);
    }
  }

  /**
   * A 2.4 listing that succeeds queried every database once, in order, and lists only
   * present users with sorted roles, each under a database it queried.
   */
  lemma {:induction false} LegacyListingShaped(dbs: seq<string>, usersIn: string -> Reply<seq<LegacyUserDoc>>)
    ensures var (r, cmds) := LegacyListing(dbs, usersIn);
            r.Ok? ==> |cmds| == |dbs| && (forall i :: 0 <= i < |dbs| ==> cmds[i] == LegacyUsersQuery(dbs[i]))
                      && forall i :: 0 <= i < |r.value| ==> LegacyShaped(r.value[i], dbs)
  {
    if dbs != [] {
      LegacyListingShaped(dbs[1..], usersIn);
      var (r, cmds) := LegacyListing(dbs, usersIn);
      if r.Ok? {
        var docs := usersIn(dbs[0]).value;
        var us := LegacyUsers(dbs[0], docs).value;
        var (rest, more) := LegacyListing(dbs[1..], usersIn);
        LegacyUsersShaped(dbs[0], docs);
        assert r.value == us + rest.value && cmds == [LegacyUsersQuery(dbs[0])] + more;
        forall i | 0 <= i < |r.value| ensures LegacyShaped(r.value[i], dbs) {
          if i < |us| {
            assert r.value[i] == us[i] && LegacyShaped(us[i], [dbs[0]]);
          } else {
            assert r.value[i] == rest.value[i - |us|];
            assert LegacyShaped(rest.value[i - |us|], dbs[1..]);
          }
        }
      }
    }
  }

  /** `LegacyListing` from the `i`-th database on, one step unfolded. */
  lemma LegacyListingAt(dbs: seq<string>, i: nat, usersIn: string -> Reply<seq<LegacyUserDoc>>)
    requires i < |dbs|
    ensures var q, later := LegacyUsersQuery(dbs[i]), LegacyListing(dbs[i + 1..], usersIn);
            LegacyListing(dbs[i..], usersIn) ==
              match usersIn(dbs[i])
              case ExecFailure(m) => (Err(Propagated(m)), [q])
              case OtherFailure(m) => (Err(Propagated(m)), [q])
              case Answer(docs) =>
                match LegacyUsers(dbs[i], docs)
                case Err(e) => (Err(e), [q])
                case Ok(us) => (if later.0.Ok? then Ok(us + later.0.value) else later.0, [q] + later.1)
  {
    assert dbs[i..][0] == dbs[i] && dbs[i..][1..] == dbs[i + 1..];
  }

  /** The 2.4 branch of `instances` as the loop it is: `allusers +=` one database at a time. */
  method LegacyInstances(dbs: seq<string>, usersIn: string -> Reply<seq<LegacyUserDoc>>)
    returns (r: Result<seq<UserProps>, UserError>, cmds: seq<Invocation>)
    ensures (r, cmds) == LegacyListing(dbs, usersIn)
  {
    var all: seq<UserProps> := [];
    cmds := [];
    var i := 0;
    ghost var whole := LegacyListing(dbs, usersIn);
    assert dbs[i..] == dbs && [] + whole.1 == whole.1;
    assert whole.0.Ok? ==> [] + whole.0.value == whole.0.value;
    while i < |dbs|
      invariant 0 <= i <= |dbs|
      invariant var later := LegacyListing(dbs[i..], usersIn);
                whole == (if later.0.Ok? then Ok(all + later.0.value) else later.0, cmds + later.1)
    {
      var db := dbs[i];
      ghost var later := LegacyListing(dbs[i + 1..], usersIn);
      LegacyListingAt(dbs, i, usersIn);
      ConcatAssoc(cmds, [LegacyUsersQuery(db)], later.1);
      cmds := cmds + [LegacyUsersQuery(db)];
      match usersIn(db) {
        case ExecFailure(m) =>
          r := Err(Propagated(m));
          return;
        case OtherFailure(m) =>
          r := Err(Propagated(m));
          return;
        case Answer(docs) =>
          var found := LegacyUsers(db, docs);
          if found.Err? {
            r := Err(found.error);
            return;
          }
          if later.0.Ok? {
            ConcatAssoc(all, found.value, later.0.value);
          }
          all := all + found.value;
      }
      i := i + 1;
    }
    assert dbs[i..] == [] && cmds + [] == cmds && all + [] == all;
    r := Ok(all);
  }

  /** One user on 2.6 and later: roles through `from_roles`, password from `credentials['MONGODB-CR']`. */
  function ModernUser(doc: ModernUserDoc): Result<UserProps, UserError> {
    if doc.roles.None? then Err(NoMethod("roles"))
    else if doc.credentials.None? then Err(NoMethod("credentials"))
    else
      var creds := doc.credentials.value;
      var pwd := if "MONGODB-CR" in creds then Some(creds["MONGODB-CR"]) else None;
      Ok(UserProps(doc.id, Some(Present), doc.user, doc.db, Some(FromRoles(doc.roles.value, doc.db)), pwd))
  }

  /** `users.collect` over the 2.6+ users. */
  function ModernListing(docs: seq<ModernUserDoc>): Result<seq<UserProps>, UserError> {
    Collect(ModernUser, docs)
  }

  /** The 2.6+ branch of `instances` fails iff some document lacks `roles` or `credentials`. */
  lemma ModernListingOkIff(docs: seq<ModernUserDoc>)
    ensures ModernListing(docs).Ok? <==> forall i :: 0 <= i < |docs| ==> docs[i].roles.Some? && docs[i].credentials.Some?
  {
    CollectOkIff(ModernUser, docs);
  }

  /** A successful 2.6+ listing has one provider per document, in order, each built by `ModernUser`. */
  lemma ModernListingPointwise(docs: seq<ModernUserDoc>)
    requires ModernListing(docs).Ok?
    ensures var us := ModernListing(docs).value;
            |us| == |docs| && forall i :: 0 <= i < |docs| ==> ModernUser(docs[i]) == Ok(us[i])
  {
    CollectPointwise(ModernUser, docs);
  }

  /**
   * Every user the 2.6+ branch builds is present, keeps the document's `_id`, `user` and
   * `db`, has one sorted role name per role entry, and has the MONGODB-CR hash as password.
   */
  lemma ModernUserShaped(d: ModernUserDoc)
    requires ModernUser(d).Ok?
    ensures var u := ModernUser(d).value;
            && u.ensure == Some(Present) && u.name == d.id && u.username == d.user && u.database == d.db
            && u.roles.Some? && Sorted(u.roles.value) && |u.roles.value| == |d.roles.value|
            && u.passwordHash == (if "MONGODB-CR" in d.credentials.value then Some(d.credentials.value["MONGODB-CR"]) else None)
  {
  }

  /** `instances`: the 2.4 listing database by database, or the 2.6+ listing at once. */
  function Instances(mongo24: bool, dbs: Reply<seq<string>>, usersIn: string -> Reply<seq<LegacyUserDoc>>,
                     users: Reply<seq<ModernUserDoc>>): (Result<seq<UserProps>, UserError>, seq<Invocation>)
  {
    if mongo24 then
      match dbs
      case ExecFailure(m) => (Err(Propagated(m)), [DatabasesQuery])
      case OtherFailure(m) => (Err(Propagated(m)), [DatabasesQuery])
      case Answer(names) =>
        var (r, cmds) := LegacyListing(names, usersIn);
        (r, [DatabasesQuery] + cmds)
    else
      match users
      case ExecFailure(m) => (Err(Propagated(m)), [ModernUsersQuery])
      case OtherFailure(m) => (Err(Propagated(m)), [ModernUsersQuery])
      case Answer(docs) => (ModernListing(docs), [ModernUsersQuery])
  }

  /**
   * `instances` first asks which databases exist (2.4) or for all users (2.6+). On 2.6+
   * that one query is all, and the listing fails iff the query or some document does;
   * a 2.4 listing that succeeds then queried each database once, in order, and holds
   * only present users with sorted roles under one of those databases.
   */
  lemma InstancesShaped(mongo24: bool, dbs: Reply<seq<string>>, usersIn: string -> Reply<seq<LegacyUserDoc>>,
                        users: Reply<seq<ModernUserDoc>>)
    ensures var (r, cmds) := Instances(mongo24, dbs, usersIn, users);
            && cmds != [] && cmds[0] == (if mongo24 then DatabasesQuery else ModernUsersQuery)
            && (!mongo24 ==> |cmds| == 1 && (r.Ok? <==> users.Answer? && ModernListing(users.value).Ok?))
            && (mongo24 && r.Ok? ==>
                  && dbs.Answer? && |cmds| == 1 + |dbs.value|
                  && (forall i :: 0 <= i < |dbs.value| ==> cmds[i + 1] == LegacyUsersQuery(dbs.value[i]))
                  && forall i :: 0 <= i < |r.value| ==> LegacyShaped(r.value[i], dbs.value))
  {
    if mongo24 && dbs.Answer? {
      var names := dbs.value;
      var (r, more) := LegacyListing(names, usersIn);
      var cmds := [DatabasesQuery] + more;
      assert Instances(mongo24, dbs, usersIn, users) == (r, cmds);
      if r.Ok? {
        LegacyListingShaped(names, usersIn);
        forall i | 0 <= i < |names| ensures cmds[i + 1] == LegacyUsersQuery(names[i]) {
          assert cmds[i + 1] == more[i];
        }
      }
    }
  }

  // ---------------------------------------------------------------- prefetch

  /** The attributes of a `mongodb_user` resource the provider reads. */
  datatype UserResource = UserResource(name: string, username: string, database: string, passwordHash: string, roles: seq<string>)

  /** The `find` block of `prefetch`: same username and same database. */
  predicate Matches(u: UserProps, r: UserResource) {
    u.username == Some(r.username) && u.database == Some(r.database)
  }

  /** The position of the first instance matching `r`, or `|users|`. */
  function FindUser(users: seq<UserProps>, r: UserResource): (k: nat)
    ensures k <= |users|
    ensures forall i :: 0 <= i < k ==> !Matches(users[i], r)
    ensures k < |users| ==> Matches(users[k], r)
  {
    if users == [] then 0
    else if Matches(users[0], r) then 0
    else 1 + FindUser(users[1..], r)
  }

  /** A resource and the provider it is attached to: an index into the instances, or None for its own. */
  datatype Attached = Attached(resource: UserResource, provider: Option<nat>)

  /** `instances[k]` is the first instance matching `r`. */
  predicate FirstMatch(users: seq<UserProps>, r: UserResource, k: nat) {
    k < |users| && Matches(users[k], r) && forall i :: 0 <= i < k ==> !Matches(users[i], r)
  }

  /**
   * `prefetch`: every resource that some instance matches gets the first such instance;
   * every other resource keeps the provider it had.
   */
  function Prefetch(resources: map<string, Attached>, users: seq<UserProps>): (r: map<string, Attached>)
    ensures r.Keys == resources.Keys
    ensures forall n :: n in r ==> r[n].resource == resources[n].resource
    ensures forall n :: n in r && (exists i :: 0 <= i < |users| && Matches(users[i], resources[n].resource)) ==>
              r[n].provider.Some? && FirstMatch(users, resources[n].resource, r[n].provider.value)
    ensures forall n :: n in r && (forall i :: 0 <= i < |users| ==> !Matches(users[i], resources[n].resource)) ==>
              r[n] == resources[n]
  {
    map n | n in resources ::
      var k := FindUser(users, resources[n].resource);
      if k < |users| then resources[n].(provider := Some(k)) else resources[n]
  }

  // ---------------------------------------------------------------- commands

  /** The `customData` of a created user: which Puppet resource made it. */
  function CustomData(name: string): string {
    "{\"createdBy\":\"Puppet Mongodb_user['" + (name + "']\"}")
  }

  /**
   * The `createUser` document, written by hand so that `createUser` comes first; the
   * pieces are those of the source, grouped to the right.
   */
  function CreateUserText(r: UserResource): string {
    "{" + ("createUser:\"" + (r.username + ("\"," + ("pwd:\"" + (r.passwordHash + ("\"," + ("digestPassword:false,"
    + ("customData:" + (CustomData(r.name) + ("," + ("roles:" + (JsonArray(r.roles) + "}"))))))))))))
  }

  /** The `to_json` of the 2.4 user hash `{user, pwd, roles}`. */
  function AddUserText(r: UserResource): string {
    "{\"user\":" + JsonString(r.username) + ",\"pwd\":" + JsonString(r.passwordHash) + ",\"roles\":" + JsonArray(r.roles) + "}"
  }

  /** The one command `create` runs: `db.addUser` in the user's database on 2.4, `createUser` otherwise. */
  function CreateCommand(mongo24: bool, r: UserResource): Invocation {
    if mongo24 then Invocation("db.addUser(" + AddUserText(r) + ")", Hash(Defaults.(db := Some(r.database))))
    else Invocation("db.runCommand(" + CreateUserText(r) + ")", Plain(r.database))
  }

  /** The one command `destroy` runs. */
  function DestroyCommand(mongo24: bool, r: UserResource): Invocation {
    Invocation((if mongo24 then "db.removeUser('" else "db.dropUser('") + r.username + "')", Hash(Defaults))
  }

  function GrantCommand(r: UserResource, grant: seq<string>): Invocation {
    Invocation("db.getSiblingDB('" + r.database + "').grantRolesToUser('" + r.username + "', " + JsonArray(grant) + ")", Hash(Defaults))
  }

  function RevokeCommand(r: UserResource, revoke: seq<string>): Invocation {
    Invocation("db.getSiblingDB('" + r.database + "').revokeRolesFromUser('" + r.username + "', " + JsonArray(revoke) + ")", Hash(Defaults))
  }

  function SetRolesCommand(r: UserResource): Invocation {
    Invocation("db.system.users.update({user:'" + r.username + "'}, { $set: {roles: " + JsonArray(r.roles) + "}})", Hash(Defaults))
  }

  /**
   * The commands of `roles=` when the wanted roles are compared with `against`: on 2.4 one
   * `$set` of the resource's roles; otherwise a grant of `wanted - against` and a revoke
   * of `against - wanted`, each only when its list is not empty.
   */
  function RoleChanges(mongo24: bool, r: UserResource, wanted: seq<string>, against: seq<string>): seq<Invocation> {
    if mongo24 then [SetRolesCommand(r)]
    else
      var grant := Minus(wanted, against);
      var revoke := Minus(against, wanted);
      (if |grant| > 0 then [GrantCommand(r, grant)] else []) + (if |revoke| > 0 then [RevokeCommand(r, revoke)] else [])
  }

  /** On 2.6+ `roles=` runs no command iff both lists hold the same roles; on 2.4 it always runs exactly one. */
  lemma RoleChangesNoneIff(mongo24: bool, r: UserResource, wanted: seq<string>, against: seq<string>)
    ensures mongo24 ==> |RoleChanges(mongo24, r, wanted, against)| == 1
    ensures !mongo24 ==> (RoleChanges(mongo24, r, wanted, against) == [] <==> forall x :: x in wanted <==> x in against)
  {
    MinusEmptyIff(wanted, against);
    MinusEmptyIff(against, wanted);
  }

  /**
   * Granting `wanted - current` and then revoking `current - wanted` leaves exactly the
   * wanted roles: the grant and revoke lists reconcile the two.
   */
  lemma GrantRevokeReconciles(current: seq<string>, wanted: seq<string>)
    ensures forall x :: x in Minus(current + Minus(wanted, current), Minus(current, wanted)) <==> x in wanted
  {
  }

  /** The grant and revoke commands carry their lists intact: they read back from the JSON. */
  lemma GrantRevokeListsReadBack(wanted: seq<string>, against: seq<string>)
    requires forall x :: x in wanted ==> '"' !in x
    requires forall x :: x in against ==> '"' !in x
    ensures ReadArray(JsonArray(Minus(wanted, against))) == Some(Minus(wanted, against))
    ensures ReadArray(JsonArray(Minus(against, wanted))) == Some(Minus(against, wanted))
  {
    JsonArrayRoundTrip(Minus(wanted, against));
    JsonArrayRoundTrip(Minus(against, wanted));
  }

  /**
   * As written, `roles=` compares the new roles with `@resource[:roles]`, which is the
   * same desired value Puppet passes in: on 2.6+ it can never grant or revoke anything.
   */
  lemma RolesSetterIsSilent(r: UserResource)
    ensures RoleChanges(false, r, r.roles, r.roles) == []
  {
    RoleChangesNoneIff(false, r, r.roles, r.roles);
  }

  // ---------------------------------------------------------------- reading the createUser text back

  /** `After` continued from an earlier step that may already have failed. */
  function Skip(t: Option<string>, p: string): Option<string> {
    match t
    case None => None
    case Some(t) => After(t, p)
  }

  /** Reads the fields of a `createUser` document back, in their fixed order: user, password, resource name, roles. */
  function ReadCreateUser(text: string): Option<(string, string, string, seq<string>)> {
    match Skip(After(text, "{"), "createUser:\"")
    case None => None
    case Some(t1) => match UntilQuote(t1)
      case None => None
      case Some((user, t2)) => match Skip(After(t2, ","), "pwd:\"")
        case None => None
        case Some(t3) => match UntilQuote(t3)
          case None => None
          case Some((pwd, t4)) => match Skip(Skip(After(t4, ","), "digestPassword:false,"), "customData:")
            case None => None
            case Some(t5) => match ReadCreatedBy(t5)
              case None => None
              case Some((name, roles)) => Some((user, pwd, name, roles))
  }

  /** Reads the tail of a `createUser` document: the creating resource's name, then the roles. */
  function ReadCreatedBy(text: string): Option<(string, seq<string>)> {
    match After(text, "{\"createdBy\":\"Puppet Mongodb_user['")
    case None => None
    case Some(t1) => match IndexOf(t1, '\'')
      case None => None
      case Some(k) => match Skip(Skip(After(t1[k..], "']\"}"), ","), "roles:")
        case None => None
        case Some(t2) =>
          if t2 == [] || t2[|t2| - 1] != '}' then None
          else match ReadArray(t2[..|t2| - 1])
            case None => None
            case Some(roles) => Some((t1[..k], roles))
  }

  lemma UntilApostropheOf(x: string, rest: string)
    requires '\'' !in x
    ensures IndexOf(x + rest, '\'') == Some(|x|) <== |rest| > 0 && rest[0] == '\''
    ensures (x + rest)[..|x|] == x && (x + rest)[|x|..] == rest
  {
    var s := x + rest;
    assert s[..|x|] == x;
    if |rest| > 0 && rest[0] == '\'' {
      assert s[|x|] == '\'';
    }
  }

  lemma CreatedByRoundTrip(name: string, roles: seq<string>)
    requires '\'' !in name
    requires forall x :: x in roles ==> '"' !in x
    ensures ReadCreatedBy(CustomData(name) + ("," + ("roles:" + (JsonArray(roles) + "}")))) == Some((name, roles))
  {
    var t2 := JsonArray(roles) + "}";
    var after := "," + ("roles:" + t2);
    var tail := "']\"}" + after;
    var t1 := name + tail;
    ConcatAssoc(name, "']\"}", after);
    ConcatAssoc("{\"createdBy\":\"Puppet Mongodb_user['", name + "']\"}", after);
    AfterConcat("{\"createdBy\":\"Puppet Mongodb_user['", t1);
    UntilApostropheOf(name, tail);
    AfterConcat("']\"}", after);
    SkipConcat(",", "roles:" + t2);
    SkipConcat("roles:", t2);
    assert t2[..|t2| - 1] == JsonArray(roles);
    JsonArrayRoundTrip(roles);
  }

  lemma SkipConcat(p: string, x: string)
    ensures Skip(Some(p + x), p) == Some(x)
  {
    AfterConcat(p, x);
  }

  /** Splits at a `"` that opens the piece after `x`. */
  lemma UntilQuoteBefore(x: string, rest: string)
    requires '"' !in x
    ensures UntilQuote(x + ("\"," + rest)) == Some((x, "," + rest))
  {
    assert x + ("\"," + rest) == x + "\"" + ("," + rest);
    UntilQuoteOf(x, "," + rest);
  }

  /**
   * The `createUser` text lists the user, the password, the creating resource and the
   * roles in that order: read back, it gives each of them.
   */
  lemma CreateUserRoundTrip(r: UserResource)
    requires '"' !in r.username && '"' !in r.passwordHash && '\'' !in r.name
    requires forall x :: x in r.roles ==> '"' !in x
    ensures ReadCreateUser(CreateUserText(r)) == Some((r.username, r.passwordHash, r.name, r.roles))
  {
    var t5 := CustomData(r.name) + ("," + ("roles:" + (JsonArray(r.roles) + "}")));
    var t4 := "digestPassword:false," + ("customData:" + t5);
    var t3 := r.passwordHash + ("\"," + t4);
    var t2 := "pwd:\"" + t3;
    var t1 := r.username + ("\"," + t2);
    AfterConcat("{", "createUser:\"" + t1);
    SkipConcat("createUser:\"", t1);
    UntilQuoteBefore(r.username, t2);
    AfterConcat(",", t2);
    SkipConcat("pwd:\"", t3);
    UntilQuoteBefore(r.passwordHash, t4);
    AfterConcat(",", t4);
    SkipConcat("digestPassword:false,", "customData:" + t5);
    SkipConcat("customData:", t5);
    CreatedByRoundTrip(r.name, r.roles);
  }

  /** `createUser` is the document's first key, as the server requires. */
  lemma CreateUserComesFirst(r: UserResource)
    ensures StartsWith(CreateUserText(r), "{createUser:")
  {
    var rest := r.username + ("\"," + ("pwd:\"" + (r.passwordHash + ("\"," + ("digestPassword:false,"
      + ("customData:" + (CustomData(r.name) + ("," + ("roles:" + (JsonArray(r.roles) + "}"))))))))));
    assert CreateUserText(r) == "{" + ("createUser:\"" + rest);
    OpensWith(rest);
  }

  lemma OpensWith(rest: string)
    ensures StartsWith("{" + ("createUser:\"" + rest), "{createUser:")
  {
    assert "{" + ("createUser:\"" + rest) == "{createUser:" + ("\"" + rest);
    StartsWithConcat("{createUser:", "\"" + rest);
  }

  // ---------------------------------------------------------------- commands that raise

  /**
   * The provider ignores what `mongo_command` returns, but every failure raises out of the
   * provider method: Puppet::ExecutionFailure, or NoMethodError on the nil output.
   */
  function Acknowledged(reply: Reply<()>): (r: Result<(), UserError>)
    ensures r.Ok? <==> reply.Answer?
    ensures r.Err? ==> r.error == Propagated(reply.message)
  {
    if reply.Answer? then Ok(()) else Err(Propagated(reply.message))
  }

  /**
   * Commands run in order until one fails: the outcome of the last one run, and the
   * commands issued, up to and including the one that failed.
   */
  function Issue(cmds: seq<Invocation>, respond: Invocation -> Reply<()>): (Result<(), UserError>, seq<Invocation>) {
    if cmds == [] then (Ok(()), [])
    else if !respond(cmds[0]).Answer? then (Acknowledged(respond(cmds[0])), [cmds[0]])
    else
      var rest := Issue(cmds[1..], respond);
      (rest.0, [cmds[0]] + rest.1)
  }

  /** One command more in front: when it succeeds the rest follow, when it fails nothing else runs. */
  lemma IssueCons(c: Invocation, rest: seq<Invocation>, respond: Invocation -> Reply<()>)
    ensures Issue([c] + rest, respond) == if respond(c).Answer? then (Issue(rest, respond).0, [c] + Issue(rest, respond).1)
                                          else (Acknowledged(respond(c)), [c])
  {
    assert ([c] + rest)[0] == c && ([c] + rest)[1..] == rest;
  }

  /** A single command: its own outcome, and it is issued. */
  lemma IssueOne(c: Invocation, respond: Invocation -> Reply<()>)
    ensures Issue([c], respond) == (Acknowledged(respond(c)), [c])
  {
    IssueCons(c, [], respond);
    assert [c] + [] == [c];
  }

  /** At most one command, then at most one more, which runs only when the first succeeded. */
  lemma IssueThen(first: seq<Invocation>, second: seq<Invocation>, respond: Invocation -> Reply<()>)
    requires |first| <= 1
    ensures first != [] && !respond(first[0]).Answer? ==> Issue(first + second, respond) == Issue(first, respond)
    ensures first == [] || respond(first[0]).Answer? ==>
              Issue(first + second, respond) == (Issue(second, respond).0, first + Issue(second, respond).1)
  {
    if first == [] {
      assert first + second == second;
      assert first + Issue(second, respond).1 == Issue(second, respond).1;
    } else {
      assert first == [first[0]];
      assert first + second == [first[0]] + second;
      IssueCons(first[0], second, respond);
      IssueOne(first[0], respond);
    }
  }

  /** The position of the first command whose reply is a failure, or `|cmds|`. */
  function FirstFailure(cmds: seq<Invocation>, respond: Invocation -> Reply<()>): (k: nat)
    ensures k <= |cmds|
    ensures forall i :: 0 <= i < k ==> respond(cmds[i]).Answer?
    ensures k < |cmds| ==> !respond(cmds[k]).Answer?
  {
    if cmds == [] || !respond(cmds[0]).Answer? then 0
    else 1 + FirstFailure(cmds[1..], respond)
  }

  /**
   * Running a list of commands issues exactly those up to the first failure, and fails
   * with that command's message iff some command fails.
   */
  lemma {:induction false} IssueMeaning(cmds: seq<Invocation>, respond: Invocation -> Reply<()>)
    ensures var k := FirstFailure(cmds, respond);
            Issue(cmds, respond).1 == cmds[..Through(k, |cmds|)]
    ensures var k := FirstFailure(cmds, respond);
            Issue(cmds, respond).0 == if k < |cmds| then Err(Propagated(respond(cmds[k]).message)) else Ok(())
    decreases |cmds|
  {
    if cmds != [] && respond(cmds[0]).Answer? {
      IssueMeaning(cmds[1..], respond);
      var k := FirstFailure(cmds[1..], respond);
      assert [cmds[0]] + cmds[1..][..Through(k, |cmds| - 1)] == cmds[..Through(k + 1, |cmds|)];
    }
  }

  /**
   * On 2.6+, a grant that fails raises before the revoke is run: the revoke is never
   * issued, and `roles=` fails with the grant's message.
   */
  lemma GrantFailureSkipsRevoke(r: UserResource, wanted: seq<string>, against: seq<string>,
                                respond: Invocation -> Reply<()>)
    requires Minus(wanted, against) != []
    requires !respond(GrantCommand(r, Minus(wanted, against))).Answer?
    ensures var grant := GrantCommand(r, Minus(wanted, against));
            Issue(RoleChanges(false, r, wanted, against), respond) == (Err(Propagated(respond(grant).message)), [grant])
  {
    var changes := RoleChanges(false, r, wanted, against);
    assert changes[0] == GrantCommand(r, Minus(wanted, against));
  }

  // ---------------------------------------------------------------- the provider object

  /**
   * One `mongodb_user` provider: the resource it serves, whether the server is 2.4 (the
   * memoised `mongo_24?`), its `@property_hash`, and every `mongo_command` call it made.
   */
  class UserProvider {
    const resource: UserResource
    const mongo24: bool
    var properties: UserProps
    var issued: seq<Invocation>

    constructor (resource: UserResource, mongo24: bool, found: UserProps)
      ensures this.resource == resource && this.mongo24 == mongo24
      ensures properties == found && issued == []
    {
      this.resource := resource;
      this.mongo24 := mongo24;
      properties := found;
      issued := [];
    }

    /** `exists?`: false iff the hash's ensure is absent or nil. */
    function Exists(): (b: bool)
      reads this
      ensures b <==> properties.ensure == Some(Present)
    {
      match properties.ensure
      case None => false
      case Some(e) => e != Absent
    }

    /**
     * `create`: one create command; when it succeeds the hash records the resource as
     * present and `create` answers `exists?`, which is then true; when it fails the
     * exception leaves the hash as it was.
     */
    method Create(respond: Invocation -> Reply<()>) returns (r: Result<bool, UserError>)
      modifies this`properties, this`issued
      ensures issued == old(issued) + [CreateCommand(mongo24, resource)]
      ensures r.Ok? <==> respond(CreateCommand(mongo24, resource)).Answer?
      ensures r.Err? ==> r.error == Propagated(respond(CreateCommand(mongo24, resource)).message)
                         && properties == old(properties)
      ensures r.Ok? ==> r.value && properties == old(properties).(ensure := Some(Present),
                username := Some(resource.username), database := Some(resource.database),
                passwordHash := Some(resource.passwordHash), roles := Some(resource.roles))
    {
      var cmd := CreateCommand(mongo24, resource);
      issued := issued + [cmd];
      var reply := respond(cmd);
      if !reply.Answer? {
        return Err(Propagated(reply.message));
      }
      properties := properties.(ensure := Some(Present), username := Some(resource.username),
        database := Some(resource.database), passwordHash := Some(resource.passwordHash), roles := Some(resource.roles));
      var present := Exists();
      r := Ok(present);
    }

    /** One `mongo_command` call: it is issued, and a failure raises. */
    method Run(cmd: Invocation, respond: Invocation -> Reply<()>) returns (r: Result<(), UserError>)
      modifies this`issued
      ensures issued == old(issued) + [cmd]
      ensures r == Acknowledged(respond(cmd))
    {
      issued := issued + [cmd];
      r := Acknowledged(respond(cmd));
    }

    /** `destroy`: exactly one command, `removeUser` on 2.4 and `dropUser` otherwise, which may raise. */
    method Destroy(respond: Invocation -> Reply<()>) returns (r: Result<(), UserError>)
      modifies this`issued
      ensures issued == old(issued) + [DestroyCommand(mongo24, resource)]
      ensures r == Acknowledged(respond(DestroyCommand(mongo24, resource)))
    {
      r := Run(DestroyCommand(mongo24, resource), respond);
    }

    /**
     * The commands of `roles=` for the new roles `wanted`, compared with `against`: each
     * may raise, and a raise ends `roles=` before the next command.
     */
    method ChangeRoles(wanted: seq<string>, against: seq<string>, respond: Invocation -> Reply<()>)
      returns (r: Result<(), UserError>)
      modifies this`issued
      ensures r == Issue(RoleChanges(mongo24, resource, wanted, against), respond).0
      ensures issued == old(issued) + Issue(RoleChanges(mongo24, resource, wanted, against), respond).1
    {
      if mongo24 {
        var cmd := SetRolesCommand(resource);
        IssueOne(cmd, respond);
        r := Run(cmd, respond);
        return;
      }
      var grant := Minus(wanted, against);
      var revoke := Minus(against, wanted);
      ghost var granting: seq<Invocation> := if |grant| > 0 then [GrantCommand(resource, grant)] else [];
      ghost var revoking: seq<Invocation> := if |revoke| > 0 then [RevokeCommand(resource, revoke)] else [];
      assert RoleChanges(mongo24, resource, wanted, against) == granting + revoking;
      IssueThen(granting, revoking, respond);
      r := Ok(());
      if |grant| > 0 {
        var cmd := GrantCommand(resource, grant);
        IssueOne(cmd, respond);
        r := Run(cmd, respond);
        if r.Err? {
          return;
        }
      }
      assert issued == old(issued) + granting;
      ConcatAssoc(old(issued), granting, Issue(revoking, respond).1);
      ghost var afterGrant := issued;
      if |revoke| > 0 {
        var cmd := RevokeCommand(resource, revoke);
        IssueOne(cmd, respond);
        r := Run(cmd, respond);
      }
      assert r == Issue(revoking, respond).0 && issued == afterGrant + Issue(revoking, respond).1;
    }

    /** `roles=` as written: the new roles are compared with the resource's own roles. */
    method AssignRoles(roles: seq<string>, respond: Invocation -> Reply<()>) returns (r: Result<(), UserError>)
      modifies this`issued
      ensures r == Issue(RoleChanges(mongo24, resource, roles, resource.roles), respond).0
      ensures issued == old(issued) + Issue(RoleChanges(mongo24, resource, roles, resource.roles), respond).1
    {
      r := ChangeRoles(roles, resource.roles, respond);
    }

    /** `roles=` as intended: the new roles are compared with the roles the user has now. */
    method AssignRolesFromCurrent(roles: seq<string>, respond: Invocation -> Reply<()>) returns (r: Result<(), UserError>)
      requires properties.roles.Some?
      modifies this`issued
      ensures r == Issue(RoleChanges(mongo24, resource, roles, properties.roles.value), respond).0
      ensures issued == old(issued) + Issue(RoleChanges(mongo24, resource, roles, properties.roles.value), respond).1
    {
      r := ChangeRoles(roles, properties.roles.value, respond);
    }
  }
}
