/** Credentials kept in Vault: reading, rotating and emptying them
    (operator/controllers/zookeeper_vault.go), and the passes over servers that do it
    (operator/controllers/zookeeper_reconciler.go). */
module VaultRotation {
  import opened Bytes
  import opened Text

  // ---------- secrets ----------

  datatype AnnotationKey = Refresh | OtherAnnotation(name: string)

  datatype DataKey = AdminUsername | ClientUsername | AdditionalUsers | OtherData(name: string)

  /** The Kubernetes secret; None is a nil map. */
  datatype KubeSecret = KubeSecret(name: string, annotations: Option<map<AnnotationKey, string>>,
                                   data: Option<map<DataKey, string>>)

  /** What stands for a secret that has been removed. */
  const REMOVED := KubeSecret("", None, None)

  ghost predicate ValidSecret(s: KubeSecret) {
    s.name == "" ==> s == REMOVED
  }

  predicate NeedsRefresh(s: KubeSecret) {
    s.annotations.Some? && Refresh in s.annotations.value && s.annotations.value[Refresh] == "true"
  }

  predicate NeedsCleaning(s: KubeSecret) {
    s.name != "" && (s.data.Some? || NeedsRefresh(s))
  }

  predicate ContainsKey(s: KubeSecret, key: DataKey) {
    s.data.Some? && key in s.data.value && s.data.value[key] != ""
  }

  datatype VaultName = Admin | Client | Users

  datatype Field = Username | Password | UserList

  /** A secret in Vault with the number of times it was written. */
  datatype Entry = Entry(fields: map<Field, string>, version: nat)

  type Vault = map<VaultName, Entry>

  function Version(v: Vault, name: VaultName): nat {
    if name in v then v[name].version else 0
  }

  function FieldOf(v: Vault, name: VaultName, field: Field): string {
    if name in v && field in v[name].fields then v[name].fields[field] else ""
  }

  // ---------- names ----------

  /** The part of "name:password" before the first colon. */
  function FirstField(s: string): string {
    Split(s, ':')[0]
  }

  function ExtractNames(text: string): (names: seq<string>)
    ensures |names| == |Split(text, ',')|
    ensures forall i :: 0 <= i < |names| ==> names[i] == FirstField(Split(text, ',')[i])
  {
    seq(|Split(text, ',')|, i requires 0 <= i < |Split(text, ',')| => FirstField(Split(text, ',')[i]))
  }

  /** extractUserNames overwrites the split slice in place. */
  method ExtractUserNames(text: string) returns (names: array<string>)
    ensures fresh(names) && names[..] == ExtractNames(text)
  {
    var parts := Split(text, ',');
    names := new string[|parts|](i requires 0 <= i < |parts| => parts[i]);
    var k := 0;
    while k < names.Length
      invariant 0 <= k <= names.Length == |parts|
      invariant forall i :: 0 <= i < k ==> names[i] == FirstField(parts[i])
      invariant forall i :: k <= i < |parts| ==> names[i] == parts[i]
    {
      names[k] := Split(names[k], ':')[0];
      k := k + 1;
    }
  }

  function NonEmpty(names: seq<string>): (r: seq<string>)
    ensures forall i :: 0 <= i < |r| ==> r[i] != "" && r[i] in names
  {
    if names == [] then []
    else
      var most, last := NonEmpty(names[..|names| - 1]), names[|names| - 1];
      if last == "" then most else most + [last]
  }

  /** "name:password" for each name, the i-th with the i-th password. */
  function Pairs(names: seq<string>, passwords: nat -> string): (r: seq<string>)
    ensures |r| == |names|
    ensures forall i :: 0 <= i < |names| ==> r[i] == names[i] + [':'] + passwords(i)
  {
    if names == [] then []
    else
      var last := |names| - 1;
      Pairs(names[..last], passwords) + [names[last] + [':'] + passwords(last)]
  }

  // ---------- one pass ----------

  /** What the generator hands out in one pass. */
  datatype Passwords = Passwords(admin: string, client: string, users: nat -> string)

  /** Generated passwords hold no comma. */
  ghost predicate Usable(p: Passwords) {
    NoCommas(p.users)
  }

  ghost predicate NoCommas(passwords: nat -> string) {
    forall i: nat :: NoCommaAt(passwords, i)
  }

  predicate NoCommaAt(passwords: nat -> string, i: nat) {
    ',' !in passwords(i)
  }

  predicate Writes(v: Vault, name: VaultName, s: KubeSecret) {
    name !in v || NeedsRefresh(s)
  }

  function LoginName(v: Vault, name: VaultName, key: DataKey, s: KubeSecret): string {
    if ContainsKey(s, key) then s.data.value[key] else FieldOf(v, name, Username)
  }

  /** processAdminCredentials and processClientCredentials */
  function WriteLogin(v: Vault, name: VaultName, key: DataKey, s: KubeSecret, password: string): Vault {
    if !Writes(v, name, s) then v
    else
      var user := LoginName(v, name, key, s);
      v[name := Entry(map[Username := user, Password := if user != "" then password else ""], Version(v, name) + 1)]
  }

  function UserNames(v: Vault, s: KubeSecret): seq<string> {
    if ContainsKey(s, AdditionalUsers) then NonEmpty(ExtractNames(s.data.value[AdditionalUsers]))
    else if Users in v && UserList in v[Users].fields then NonEmpty(ExtractNames(v[Users].fields[UserList]))
    else []
  }

  /** processAdditionalUsersCredentials */
  function WriteUsers(v: Vault, s: KubeSecret, passwords: nat -> string): Vault {
    if !Writes(v, Users, s) then v
    else v[Users := Entry(map[UserList := Join(Pairs(UserNames(v, s), passwords), ',')], Version(v, Users) + 1)]
  }

  function WriteAll(v: Vault, s: KubeSecret, p: Passwords): Vault {
    var logins := WriteLogin(WriteLogin(v, Admin, AdminUsername, s, p.admin), Client, ClientUsername, s, p.client);
    WriteUsers(logins, s, p.users)
  }

  /** The emptied secret; None when its annotations are a nil map, which cannot be written to. */
  function Cleaned(s: KubeSecret): Option<KubeSecret> {
    if !NeedsCleaning(s) then Some(s)
    else if s.annotations.None? then None
    else Some(KubeSecret(s.name, Some(s.annotations.value[Refresh := "false"]), None))
  }

  // ---------- one rotation per cycle ----------

  /** Nothing is left to do. */
  predicate Quiet(v: Vault, s: KubeSecret) {
    Admin in v && Client in v && Users in v && !NeedsRefresh(s) && !NeedsCleaning(s)
  }

  /** After one pass nothing is left to do, whatever there was. */
  lemma PassSettles(v: Vault, s: KubeSecret, p: Passwords)
    requires ValidSecret(s) && Cleaned(s).Some?
    ensures Quiet(WriteAll(v, s, p), Cleaned(s).value) && ValidSecret(Cleaned(s).value)
  {
    hide Pairs, Join, UserNames;
  }

  lemma QuietPass(v: Vault, s: KubeSecret, p: Passwords)
    requires Quiet(v, s)
    ensures WriteAll(v, s, p) == v && Cleaned(s) == Some(s)
  {}

  /** A pass writes each of the three secrets at most once, and all of them on a request. */
  lemma PassWrites(v: Vault, s: KubeSecret, p: Passwords, name: VaultName)
    ensures Version(WriteAll(v, s, p), name) == Version(v, name) + if Writes(v, name, s) then 1 else 0
    ensures !Writes(v, name, s) ==> name in WriteAll(v, s, p) && WriteAll(v, s, p)[name] == v[name]
  {
    hide Pairs, Join, UserNames, LoginName;
  }

  /** What the passes of a cycle come to. */
  datatype Outcome = Outcome(built: seq<Vault>, secret: KubeSecret)

  function Repeat(v: Vault, n: nat): (r: seq<Vault>)
    ensures |r| == n && forall i :: 0 <= i < n ==> r[i] == v
  {
    if n == 0 then [] else [v] + Repeat(v, n - 1)
  }

  /** The passes of one cycle, one for each server, each with its own passwords: the vault every
      server's deployment is built after, and the secret at the end. */
  function Passes(v: Vault, s: KubeSecret, given: seq<Passwords>): Option<Outcome>
    decreases |given|
  {
    if given == [] then Some(Outcome([], s))
    else
      var cleaned := Cleaned(s);
      if cleaned.None? then None
      else
        var now := WriteAll(v, s, given[0]);
        var rest := Passes(now, cleaned.value, given[1..]);
        if rest.None? then None else Some(Outcome([now] + rest.value.built, rest.value.secret))
  }

  lemma {:induction false} QuietPasses(v: Vault, s: KubeSecret, given: seq<Passwords>)
    requires Quiet(v, s)
    ensures Passes(v, s, given) == Some(Outcome(Repeat(v, |given|), s))
  {
    if given != [] {
      QuietPass(v, s, given[0]);
      QuietPasses(v, s, given[1..]);
    }
  }

  /** One rotation per cycle: for any number of servers, all deployments of a successful cycle
      are built after the vault that the first pass left, in which each secret was written at
      most once. */
  lemma OneRotationPerCycle(v: Vault, s: KubeSecret, given: seq<Passwords>)
    requires ValidSecret(s) && given != []
    ensures var r := Passes(v, s, given);
            r.Some? ==>
              && r.value.built == Repeat(WriteAll(v, s, given[0]), |given|)
              && Some(r.value.secret) == Cleaned(s)
              && forall name :: Version(r.value.built[|given| - 1], name) ==
                                Version(v, name) + if Writes(v, name, s) then 1 else 0
  {
    var r := Passes(v, s, given);
    if r.Some? {
      var now := WriteAll(v, s, given[0]);
      PassSettles(v, s, given[0]);
      QuietPasses(now, Cleaned(s).value, given[1..]);
      forall name ensures Version(now, name) == Version(v, name) + if Writes(v, name, s) then 1 else 0 {
        PassWrites(v, s, given[0], name);
      }
    }
  }

  // ---------- identities ----------

  lemma FirstOfPair(name: string, password: string)
    requires ':' !in name
    ensures FirstField(name + [':'] + password) == name
  {
    SplitFirst(name, password, ':');
  }

  lemma {:induction false} AllNonEmpty(names: seq<string>)
    requires forall i :: 0 <= i < |names| ==> names[i] != ""
    ensures NonEmpty(names) == names
  {
    if names != [] {
      AllNonEmpty(names[..|names| - 1]);
      assert names == names[..|names| - 1] + [names[|names| - 1]];
    }
  }

  ghost predicate ProperNames(names: seq<string>) {
    forall i :: 0 <= i < |names| ==> names[i] != "" && ',' !in names[i] && ':' !in names[i]
  }

  /** What is written for a list of users is read back as that list. */
  lemma NamesComeBack(names: seq<string>, passwords: nat -> string)
    requires ProperNames(names) && NoCommas(passwords)
    ensures NonEmpty(ExtractNames(Join(Pairs(names, passwords), ','))) == names
  {
    var pairs := Pairs(names, passwords);
    if names == [] {
      assert Split("", ',') == [""];
      assert ExtractNames("") == [""];
      assert NonEmpty([""]) == [] by { assert [""][..0] == []; }
    } else {
      forall i | 0 <= i < |pairs| ensures ',' !in pairs[i] {
        assert NoCommaAt(passwords, i);
      }
      SplitJoin(pairs, ',');
      forall i | 0 <= i < |names| ensures FirstField(pairs[i]) == names[i] {
        FirstOfPair(names[i], passwords(i));
      }
      assert ExtractNames(Join(pairs, ',')) == names;
      AllNonEmpty(names);
    }
  }

  lemma {:induction false} PrefixHasNo(s: string, sep: char, c: char)
    requires c !in s
    ensures forall i :: 0 <= i < |Split(s, sep)| ==> c !in Split(s, sep)[i]
  {
    if s != "" {
      PrefixHasNo(s[1..], sep, c);
    }
  }

  /** Extracted names never hold a comma or a colon. */
  lemma ExtractedAreProper(text: string)
    ensures ProperNames(NonEmpty(ExtractNames(text)))
  {
    var names := ExtractNames(text);
    forall i | 0 <= i < |names| ensures ',' !in names[i] && ':' !in names[i] {
      PrefixHasNo(Split(text, ',')[i], ':', ',');
    }
    forall i | 0 <= i < |NonEmpty(names)|
      ensures NonEmpty(names)[i] != "" && ',' !in NonEmpty(names)[i] && ':' !in NonEmpty(names)[i]
    {
      assert NonEmpty(names)[i] in names;
    }
  }

  /** Who can log in. */
  datatype Identities = Identities(admin: string, client: string, users: seq<string>)

  function IdentitiesOf(v: Vault): Identities {
    Identities(FieldOf(v, Admin, Username), FieldOf(v, Client, Username),
               if Users in v && UserList in v[Users].fields
               then NonEmpty(ExtractNames(v[Users].fields[UserList])) else [])
  }

  lemma UsersKeep(v: Vault, s: KubeSecret, p: Passwords)
    requires Usable(p)
    ensures IdentitiesOf(WriteUsers(v, s, p.users)).users ==
            if Writes(v, Users, s) then UserNames(v, s) else IdentitiesOf(v).users
  {
    hide ExtractNames, NonEmpty, Pairs, Join;
    var names := UserNames(v, s);
    if Writes(v, Users, s) {
      assert ProperNames(names) by {
        if ContainsKey(s, AdditionalUsers) {
          ExtractedAreProper(s.data.value[AdditionalUsers]);
        } else if Users in v && UserList in v[Users].fields {
          ExtractedAreProper(v[Users].fields[UserList]);
        }
      }
      NamesComeBack(names, p.users);
    }
  }

  /** Who can log in after a pass, and that the new passwords are in force. */
  lemma PassIdentities(v: Vault, s: KubeSecret, p: Passwords)
    requires Usable(p)
    ensures var w := WriteAll(v, s, p);
            IdentitiesOf(w) == Identities(
              if Writes(v, Admin, s) then LoginName(v, Admin, AdminUsername, s) else FieldOf(v, Admin, Username),
              if Writes(v, Client, s) then LoginName(v, Client, ClientUsername, s) else FieldOf(v, Client, Username),
              if Writes(v, Users, s) then UserNames(v, s) else IdentitiesOf(v).users)
    ensures var w := WriteAll(v, s, p);
            && (Writes(v, Admin, s) && FieldOf(w, Admin, Username) != "" ==> FieldOf(w, Admin, Password) == p.admin)
            && (Writes(v, Client, s) && FieldOf(w, Client, Username) != "" ==> FieldOf(w, Client, Password) == p.client)
  {
    hide ExtractNames, NonEmpty, Pairs, Join;
    var w := WriteLogin(WriteLogin(v, Admin, AdminUsername, s, p.admin), Client, ClientUsername, s, p.client);
    UsersKeep(w, s, p);
    assert UserNames(w, s) == UserNames(v, s);
  }

  // ---------- histories ----------

  /** Vault and the secret as stored in the cluster. */
  datatype Stored = Stored(vault: Vault, secret: KubeSecret)

  /** The first k of the three writes of a pass. */
  function WriteSome(v: Vault, s: KubeSecret, p: Passwords, k: nat): Vault {
    if k == 0 then v
    else if k == 1 then WriteLogin(v, Admin, AdminUsername, s, p.admin)
    else if k == 2 then WriteLogin(WriteSome(v, s, p, 1), Client, ClientUsername, s, p.client)
    else WriteAll(v, s, p)
  }

  /** A pass that failed: it got so far, and the stored secret is as it was. */
  ghost predicate PassFails(a: Stored, b: Stored, p: Passwords) {
    b.secret == a.secret && exists k :: b.vault == WriteSome(a.vault, a.secret, p, k)
  }

  ghost predicate PassSucceeds(a: Stored, b: Stored, p: Passwords) {
    Some(b.secret) == Cleaned(a.secret) && b.vault == WriteAll(a.vault, a.secret, p)
  }

  /** Someone asks for a rotation, perhaps with new data. */
  ghost predicate Requests(a: Stored, b: Stored) {
    b.vault == a.vault && NeedsRefresh(b.secret)
  }

  ghost predicate Happens(a: Stored, b: Stored, p: Passwords) {
    PassFails(a, b, p) || PassSucceeds(a, b, p) || Requests(a, b)
  }

  /** Any mixture of requests and of passes, failed and successful, with what the generator
      hands out in each. */
  ghost predicate History(states: seq<Stored>, given: seq<Passwords>) {
    |states| == |given| + 1 &&
    forall i :: 0 <= i < |given| ==> Happens(states[i], states[i + 1], given[i])
  }

  lemma HistoryPrefix(states: seq<Stored>, given: seq<Passwords>)
    requires History(states, given) && given != []
    ensures History(states[..|given|], given[..|given| - 1])
  {
    hide Happens;
    var last := |given| - 1;
    var most, some := states[..last + 1], given[..last];
    forall i | 0 <= i < last ensures Happens(most[i], most[i + 1], some[i]) {
      assert Happens(states[i], states[i + 1], given[i]);
    }
  }

  /** Without data in the secret no part of a pass changes who can log in. */
  lemma SomeIdentities(v: Vault, s: KubeSecret, p: Passwords, k: nat)
    requires Usable(p) && s.data.None?
    ensures IdentitiesOf(WriteSome(v, s, p, k)) == IdentitiesOf(v)
  {
    hide ExtractNames, NonEmpty, Pairs, Join;
    if k >= 3 {
      PassIdentities(v, s, p);
    }
  }

  /** Over every history after the Kubernetes secret was emptied, failed passes included, the
      user names and the ordered list of additional users stay the same. */
  lemma {:induction false} IdentitiesSurvive(states: seq<Stored>, given: seq<Passwords>)
    requires History(states, given)
    requires forall i :: 0 <= i < |given| ==> Usable(given[i])
    requires forall i :: 0 <= i < |states| ==> states[i].secret.data.None?
    ensures IdentitiesOf(states[|given|].vault) == IdentitiesOf(states[0].vault)
    decreases |given|
  {
    if given != [] {
      var last := |given| - 1;
      HistoryPrefix(states, given);
      IdentitiesSurvive(states[..last + 1], given[..last]);
      var a, b, p := states[last], states[last + 1], given[last];
      assert Happens(a, b, p);
      hide WriteAll, WriteSome, IdentitiesOf, Cleaned, Usable;
      if PassFails(a, b, p) {
        var k :| b.vault == WriteSome(a.vault, a.secret, p, k);
        SomeIdentities(a.vault, a.secret, p, k);
      } else if PassSucceeds(a, b, p) {
        WholePass(a.vault, a.secret, p);
        SomeIdentities(a.vault, a.secret, p, 3);
      }
    }
  }

  lemma WholePass(v: Vault, s: KubeSecret, p: Passwords)
    ensures WriteAll(v, s, p) == WriteSome(v, s, p, 3)
  {}

  // ---------- no request is lost ----------

  /** Between these two states a request was served: all three secrets were written. */
  ghost predicate Served(a: Stored, b: Stored) {
    NeedsRefresh(a.secret) && !NeedsRefresh(b.secret) &&
    forall name :: Version(b.vault, name) == Version(a.vault, name) + 1
  }

  ghost predicate ServedAt(states: seq<Stored>, k: nat) {
    k + 1 < |states| && Served(states[k], states[k + 1])
  }

  /** Whenever a request is gone, a pass in between wrote all three secrets. */
  lemma {:induction false} NoRequestIsLost(states: seq<Stored>, given: seq<Passwords>) returns (k: nat)
    requires History(states, given)
    requires NeedsRefresh(states[0].secret) && !NeedsRefresh(states[|given|].secret)
    ensures ServedAt(states, k)
    decreases |given|
  {
    var last := |given| - 1;
    var a, b := states[last], states[last + 1];
    assert Happens(a, b, given[last]);
    hide WriteAll, WriteSome;
    if NeedsRefresh(a.secret) {
      forall name ensures Version(b.vault, name) == Version(a.vault, name) + 1 {
        PassWrites(a.vault, a.secret, given[last], name);
      }
      k := last;
    } else {
      HistoryPrefix(states, given);
      k := NoRequestIsLost(states[..last + 1], given[..last]);
    }
  }

  // ---------- the passes as they run ----------

  /** The reconciler's view: Vault, the stored secret, and the copy it works on. */
  class Reconciler {
    var vault: Vault
    var stored: KubeSecret
    var secret: KubeSecret

    constructor (v: Vault, s: KubeSecret)
      ensures vault == v && stored == s && secret == s
    {
      vault, stored, secret := v, s, s;
    }

    /** Any call to Vault or to the cluster may fail. */
    method Call() returns (ok: bool)
    {
      ok := *;
    }

    /** WriteVaultSecret */
    method WriteSecret(name: VaultName, fields: map<Field, string>) returns (ok: bool)
      modifies this`vault
      ensures vault == if ok then old(vault)[name := Entry(fields, Version(old(vault), name) + 1)] else old(vault)
    {
      ok := Call();
      if ok {
        vault := vault[name := Entry(fields, Version(vault, name) + 1)];
      }
    }

    /** processAdminCredentials and processClientCredentials; `password` is what the generator
        would give, if it does not fail. */
    method ProcessLogin(name: VaultName, key: DataKey, password: string) returns (ok: bool)
      modifies this`vault
      ensures vault == if ok then WriteLogin(old(vault), name, key, secret, password) else old(vault)
    {
      ok := Call();
      if !ok || !(name !in vault || NeedsRefresh(secret)) {
        return;
      }
      var user := "";
      if ContainsKey(secret, key) {
        user := secret.data.value[key];
      } else if name in vault && Username in vault[name].fields {
        user := vault[name].fields[Username];
      }
      var generated := "";
      if user != "" {
        ok := Call();
        if !ok {
          return;
        }
        generated := password;
      }
      ok := WriteSecret(name, map[Username := user, Password := generated]);
    }

    /** processAdditionalUsersCredentials */
    method ProcessUsers(passwords: nat -> string) returns (ok: bool)
      modifies this`vault
      ensures vault == if ok then WriteUsers(old(vault), secret, passwords) else old(vault)
    {
      hide ExtractNames, Pairs, Join;
      ok := Call();
      if !ok || !(Users !in vault || NeedsRefresh(secret)) {
        return;
      }
      var names := [];
      if ContainsKey(secret, AdditionalUsers) {
        var extracted := ExtractUserNames(secret.data.value[AdditionalUsers]);
        names := extracted[..];
      } else if Users in vault && UserList in vault[Users].fields {
        var extracted := ExtractUserNames(vault[Users].fields[UserList]);
        names := extracted[..];
      }
      var users;
      ok, users := Generate(names, passwords);
      if !ok {
        return;
      }
      ok := WriteSecret(Users, map[UserList := Join(users, ',')]);
    }

    /** A fresh password for every user with a name. */
    method Generate(names: seq<string>, passwords: nat -> string) returns (ok: bool, users: seq<string>)
      ensures ok ==> users == Pairs(NonEmpty(names), passwords)
    {
      hide NonEmpty, Pairs;
      users, ok := [], true;
      NoPairs(passwords);
      assert names[..0] == [];
      for k := 0 to |names|
        invariant users == Pairs(NonEmpty(names[..k]), passwords)
      {
        OneMorePair(names, k, passwords);
        if names[k] != "" {
          ok := Call();
          if !ok {
            return;
          }
          users := users + [names[k] + [':'] + passwords(|users|)];
        }
      }
      assert names[..|names|] == names;
      ok := true;
    }

    /** processVaultSecrets: the stored secret changes in the last call only, after all three
        credentials have been written. */
    method ProcessVaultSecrets(p: Passwords) returns (ok: bool)
      requires secret == stored
      modifies this
      ensures ok ==> stored == secret && PassSucceeds(Stored(old(vault), old(stored)), Stored(vault, stored), p)
      ensures !ok ==> PassFails(Stored(old(vault), old(stored)), Stored(vault, stored), p)
    {
      hide WriteLogin, WriteUsers;
      ghost var v, s := vault, secret;
      assert vault == WriteSome(v, s, p, 0);
      ok := ProcessLogin(Admin, AdminUsername, p.admin);
      if !ok {
        return;
      }
      assert vault == WriteSome(v, s, p, 1);
      ok := ProcessLogin(Client, ClientUsername, p.client);
      if !ok {
        return;
      }
      assert vault == WriteSome(v, s, p, 2);
      ok := ProcessUsers(p.users);
      if !ok {
        return;
      }
      assert vault == WriteSome(v, s, p, 3);
      if NeedsCleaning(secret) {
        if secret.annotations.None? {
          return false;
        }
        secret := secret.(annotations := Some(secret.annotations.value[Refresh := "false"]));
        secret := secret.(data := None);
        ok := Call();
        if !ok {
          return;
        }
        stored := secret;
      }
    }

    /** The passes over the servers; `built` is the vault each deployment is built after. */
    method ProcessServers(given: seq<Passwords>)
      returns (ok: bool, built: seq<Vault>, ghost states: seq<Stored>)
      requires secret == stored
      modifies this
      ensures ok ==> Passes(old(vault), old(secret), given) == Some(Outcome(built, secret)) && stored == secret
      ensures 0 < |states| <= |given| + 1 && History(states, given[..|states| - 1])
      ensures states[0] == Stored(old(vault), old(stored)) && states[|states| - 1] == Stored(vault, stored)
      ensures !ok ==> forall k :: 0 <= k < |states| - 2 ==> PassSucceeds(states[k], states[k + 1], given[k])
    {
      hide WriteAll, Cleaned, Passes, PassFails, History;
      built, ok := [], true;
      states := [Stored(vault, stored)];
      assert History(states, given[..0]) by { StartOfHistory(states[0]); }
      ghost var all := Passes(vault, secret, given);
      assert given[0..] == given;
      for k := 0 to |given|
        invariant secret == stored
        invariant Continues(all, built, Passes(vault, secret, given[k..]))
        invariant |states| == k + 1 && History(states, given[..k])
        invariant states[0] == Stored(old(vault), old(stored)) && states[k] == Stored(vault, stored)
        invariant forall m :: 0 <= m < k ==> PassSucceeds(states[m], states[m + 1], given[m])
      {
        PassesStep(vault, secret, given, k);
        ok := ProcessVaultSecrets(given[k]);
        OneMorePass(states, given, k, Stored(vault, stored), ok);
        states := states + [Stored(vault, stored)];
        if !ok {
          return;
        }
        built := built + [vault];
      }
      ok := true;
      PassesEnd(vault, secret, given);
      assert built + [] == built;
    }
  }

  lemma NoPairs(passwords: nat -> string)
    ensures Pairs(NonEmpty([]), passwords) == []
  {}

  lemma OneMorePair(names: seq<string>, k: nat, passwords: nat -> string)
    requires k < |names|
    ensures var most := Pairs(NonEmpty(names[..k]), passwords);
            Pairs(NonEmpty(names[..k + 1]), passwords) ==
            if names[k] == "" then most else most + [names[k] + [':'] + passwords(|most|)]
  {
    assert names[..k + 1][..k] == names[..k];
    var more := NonEmpty(names[..k]) + [names[k]];
    assert more[..|more| - 1] == NonEmpty(names[..k]);
  }

  lemma StartOfHistory(s: Stored)
    ensures History([s], [])
  {}

  lemma OneMorePass(states: seq<Stored>, given: seq<Passwords>, k: nat, next: Stored, ok: bool)
    requires k < |given| && |states| == k + 1 && History(states, given[..k])
    requires if ok then PassSucceeds(states[k], next, given[k]) else PassFails(states[k], next, given[k])
    ensures History(states + [next], given[..k + 1])
  {
    hide PassSucceeds, PassFails;
    var all, some := states + [next], given[..k + 1];
    forall m | 0 <= m < k + 1 ensures Happens(all[m], all[m + 1], some[m]) {
      if m < k {
        assert Happens(states[m], states[m + 1], given[..k][m]);
      }
    }
  }

  /** `all` is `done` followed by what `rest` says. */
  ghost predicate Continues(all: Option<Outcome>, done: seq<Vault>, rest: Option<Outcome>) {
    all.Some? == rest.Some? &&
    (all.Some? ==> all.value == Outcome(done + rest.value.built, rest.value.secret))
  }

  lemma PassesStep(v: Vault, s: KubeSecret, given: seq<Passwords>, k: nat)
    requires k < |given|
    ensures Passes(v, s, given[k..]) ==
            var now := WriteAll(v, s, given[k]);
            if Cleaned(s).None? then None
            else
              var rest := Passes(now, Cleaned(s).value, given[k + 1..]);
              if rest.None? then None else Some(Outcome([now] + rest.value.built, rest.value.secret))
  {
    hide WriteAll, Cleaned;
    assert given[k..][0] == given[k] && given[k..][1..] == given[k + 1..];
  }

  lemma PassesEnd(v: Vault, s: KubeSecret, given: seq<Passwords>)
    ensures Passes(v, s, given[|given|..]) == Some(Outcome([], s))
  {}
}
