/** Who is written to Vault, field by field: names come from the Kubernetes secret if it holds
    them, else from Vault, and every one gets the password generated for it
    (operator/controllers/zookeeper_vault.go). */
module VaultNames {
  import opened Bytes
  import opened Text
  import opened VaultRotation

  /** The refresh annotation says "true". */
  predicate Asked(s: KubeSecret) {
    s.annotations.Some? && Refresh in s.annotations.value && s.annotations.value[Refresh] == "true"
  }

  /** The secret holds a non-empty value. */
  predicate Supplies(s: KubeSecret, key: DataKey) {
    s.data.Some? && key in s.data.value && s.data.value[key] != ""
  }

  function Former(v: Vault, name: VaultName, field: Field): string {
    if name in v && field in v[name].fields then v[name].fields[field] else ""
  }

  // ---------- logins ----------

  /** From `v` to `w` a login is left alone, or written once: with the name the secret supplies,
      else the former one, and with the new password if there is a name. */
  ghost predicate LoginWritten(v: Vault, s: KubeSecret, w: Vault, name: VaultName, key: DataKey, password: string) {
    name in w &&
    if name in v && !Asked(s) then w[name] == v[name]
    else
      var user := if Supplies(s, key) then s.data.value[key] else Former(v, name, Username);
      w[name] == Entry(map[Username := user, Password := if user == "" then "" else password],
                       1 + if name in v then v[name].version else 0)
  }

  /** Both logins after a pass. */
  lemma LoginsAfter(v: Vault, s: KubeSecret, p: Passwords)
    ensures LoginWritten(v, s, WriteAll(v, s, p), Admin, AdminUsername, p.admin)
    ensures LoginWritten(v, s, WriteAll(v, s, p), Client, ClientUsername, p.client)
  {
    hide Pairs, Join, UserNames;
  }

  // ---------- additional users ----------

  /** The part before the first colon. */
  function BeforeColon(s: string): string {
    if s == "" || s[0] == ':' then "" else [s[0]] + BeforeColon(s[1..])
  }

  /** The names in a list of entries, from the first to the last; entries without one are left
      out. */
  function NamesIn(entries: seq<string>): seq<string> {
    if entries == [] then []
    else
      var name := BeforeColon(entries[0]);
      (if name == "" then [] else [name]) + NamesIn(entries[1..])
  }

  lemma {:induction false} FirstFieldIs(s: string)
    ensures FirstField(s) == BeforeColon(s)
  {
    if s != "" && s[0] != ':' {
      FirstFieldIs(s[1..]);
    }
  }

  lemma {:induction false} NonEmptyOfConcat(a: seq<string>, b: seq<string>)
    ensures NonEmpty(a + b) == NonEmpty(a) + NonEmpty(b)
    decreases |b|
  {
    if b == [] {
      assert a + b == a;
    } else {
      var last := |b| - 1;
      NonEmptyOfConcat(a, b[..last]);
      assert (a + b)[..|a + b| - 1] == a + b[..last];
    }
  }

  lemma {:induction false} NamesInIs(entries: seq<string>, firsts: seq<string>)
    requires |firsts| == |entries| && forall i :: 0 <= i < |entries| ==> firsts[i] == FirstField(entries[i])
    ensures NonEmpty(firsts) == NamesIn(entries)
  {
    if entries != [] {
      NamesInIs(entries[1..], firsts[1..]);
      FirstFieldIs(entries[0]);
      assert firsts == [firsts[0]] + firsts[1..];
      NonEmptyOfConcat([firsts[0]], firsts[1..]);
      assert [firsts[0]][..0] == [];
      assert NonEmpty([firsts[0]]) == if firsts[0] == "" then [] else [firsts[0]];
    }
  }

  lemma ExtractedNames(text: string)
    ensures NonEmpty(ExtractNames(text)) == NamesIn(Split(text, ','))
  {
    hide Split, NonEmpty;
    NamesInIs(Split(text, ','), ExtractNames(text));
  }

  /** Whose passwords are written: the users in the secret, else those in Vault. */
  function UsersOf(v: Vault, s: KubeSecret): seq<string> {
    if Supplies(s, AdditionalUsers) then NamesIn(Split(s.data.value[AdditionalUsers], ','))
    else if Users in v && UserList in v[Users].fields then NamesIn(Split(v[Users].fields[UserList], ','))
    else []
  }

  /** The i-th entry is the i-th user, a colon, and the i-th password. */
  ghost predicate EntriesFor(entries: seq<string>, users: seq<string>, passwords: nat -> string) {
    |entries| == |users| && forall i :: 0 <= i < |users| ==> entries[i] == users[i] + ":" + passwords(i)
  }

  ghost predicate UsersWritten(v: Vault, s: KubeSecret, w: Vault, passwords: nat -> string) {
    Users in w &&
    if Users in v && !Asked(s) then w[Users] == v[Users]
    else
      && w[Users].version == 1 + (if Users in v then v[Users].version else 0)
      && w[Users].fields.Keys == {UserList}
      && exists entries :: EntriesFor(entries, UsersOf(v, s), passwords) &&
                           w[Users].fields[UserList] == Join(entries, ',')
  }

  lemma UserNamesAre(v: Vault, s: KubeSecret)
    ensures UserNames(v, s) == UsersOf(v, s)
  {
    hide NonEmpty, ExtractNames, Split;
    if Supplies(s, AdditionalUsers) {
      ExtractedNames(s.data.value[AdditionalUsers]);
    } else if Users in v && UserList in v[Users].fields {
      ExtractedNames(v[Users].fields[UserList]);
    }
  }

  /** The additional users after a pass. */
  lemma UsersAfter(v: Vault, s: KubeSecret, p: Passwords)
    ensures UsersWritten(v, s, WriteAll(v, s, p), p.users)
  {
    hide NonEmpty, ExtractNames, Split, Join, Pairs;
    var logins := WriteLogin(WriteLogin(v, Admin, AdminUsername, s, p.admin), Client, ClientUsername, s, p.client);
    assert Users in logins <==> Users in v;
    assert Users in v ==> logins[Users] == v[Users];
    UserNamesAre(v, s);
    UserNamesAre(logins, s);
    assert UsersOf(logins, s) == UsersOf(v, s);
    var entries := Pairs(UsersOf(v, s), p.users);
    assert EntriesFor(entries, UsersOf(v, s), p.users);
    assert WriteAll(v, s, p) == WriteUsers(logins, s, p.users);
  }

  /** Read back, the list gives these entries: no generated password holds a comma. */
  lemma EntriesReadBack(entries: seq<string>, users: seq<string>, passwords: nat -> string)
    requires EntriesFor(entries, users, passwords) && users != [] && NoCommas(passwords)
    requires forall i :: 0 <= i < |users| ==> ',' !in users[i]
    ensures Split(Join(entries, ','), ',') == entries
  {
    forall i | 0 <= i < |entries| ensures ',' !in entries[i] {
      assert NoCommaAt(passwords, i);
    }
    SplitJoin(entries, ',');
  }

  // ---------- the Kubernetes secret ----------

  /** A pass leaves an existing secret without data and without a request, and its other
      annotations alone; it cannot when there is something to clean but no annotations. */
  lemma SecretAfter(s: KubeSecret)
    ensures Cleaned(s).None? <==> s.name != "" && s.data.Some? && s.annotations.None?
    ensures Cleaned(s).Some? ==>
              var c := Cleaned(s).value;
              && c.name == s.name
              && (s.name != "" ==> c.data.None? && !Asked(c))
              && (s.name == "" || (s.data.None? && !Asked(s)) ==> c == s)
              && c.annotations.Some? == s.annotations.Some?
              && forall k :: c.annotations.Some? && k != Refresh ==>
                   (k in c.annotations.value <==> k in s.annotations.value) &&
                   (k in c.annotations.value ==> c.annotations.value[k] == s.annotations.value[k])
  {}

  /** A name in the secret wins over the one in Vault. */
  lemma NewNameWins()
    ensures var v: Vault := map[Admin := Entry(map[Username := "old", Password := "p"], 1)];
            var s := KubeSecret("z", Some(map[Refresh := "true"]), Some(map[AdminUsername := "new"]));
            var w := WriteAll(v, s, Passwords("x", "y", (i: nat) => "u"));
            Admin in w && w[Admin].fields == map[Username := "new", Password := "x"] && w[Admin].version == 2
  {
    var v: Vault := map[Admin := Entry(map[Username := "old", Password := "p"], 1)];
    var s := KubeSecret("z", Some(map[Refresh := "true"]), Some(map[AdminUsername := "new"]));
    hide WriteAll;
    LoginsAfter(v, s, Passwords("x", "y", (i: nat) => "u"));
  }
}
