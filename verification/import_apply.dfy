/**
 Applying imported connections: the key files, the secrets and the registry of profiles change together or not at all. Any
 single write may fail, and then it changes nothing; what was done before is undone in reverse.
 */
module ImportApply {
  import opened Text

  datatype Profile = Profile(
    name: string, target: string, port: int, identityFile: string, secretRef: string, proxyJump: string)

  datatype Secret = Secret(password: string, passphrase: string)

  datatype KeyFile = KeyFile(material: string, mode: nat)

  datatype Imported = Imported(p: Profile, password: string, passphrase: string, keyMaterial: string)

  type Registry = map<string, Profile>
  type Secrets = map<string, Secret>
  type Files = map<string, KeyFile>

  // ----- profiles

  predicate NameChar(c: char) {
    'A' <= c <= 'Z' || 'a' <= c <= 'z' || '0' <= c <= '9' || c == '_' || c == '.' || c == '-'
  }

  predicate ValidName(name: string) {
    && 0 < |name| <= 64
    && (forall i :: 0 <= i < |name| ==> NameChar(name[i]))
    && name[0] != '_' && name[0] != '.' && name[0] != '-'
  }

  /** Registry.Set accepts this profile. */
  predicate Acceptable(p: Profile) {
    && ValidName(TrimSpace(p.name))
    && TrimSpace(p.target) != ""
    && (forall c :: c in TrimSpace(p.target) ==> c != '\r' && c != '\n' && c != '\t' && c != ' ')
    && 0 <= p.port <= 65535
  }

  function Normal(p: Profile): Profile {
    Profile(TrimSpace(p.name), TrimSpace(p.target), p.port, TrimSpace(p.identityFile), TrimSpace(p.secretRef),
            TrimSpace(p.proxyJump))
  }

  function Set(reg: Registry, p: Profile): Registry {
    reg[Normal(p).name := Normal(p)]
  }

  // ----- one item, when nothing fails that stops the import

  /** The mode of a file that only its owner may read and write: 0600 in octal. */
  const OWNER_ONLY := 6 * 8 * 8

  predicate NeedsKey(item: Imported) {
    item.p.identityFile == "" && item.keyMaterial != ""
  }

  predicate HasSecret(item: Imported) {
    item.password != "" || item.passphrase != ""
  }

  function KeyPath(name: string): string {
    "keys/" + name + ".key"
  }

  function SecretRef(name: string): string {
    "profile:" + name
  }

  function Material(text: string): string {
    if text != "" && text[|text| - 1] == '\n' then text else text + "\n"
  }

  function Completed(item: Imported): Profile {
    var p := if NeedsKey(item) then item.p.(identityFile := KeyPath(item.p.name)) else item.p;
    if HasSecret(item) then p.(secretRef := SecretRef(item.p.name)) else p
  }

  /** An item is passed over when its name is taken, it is not acceptable, or its key file cannot be written. */
  predicate PassedOver(reg: Registry, item: Imported, noKey: bool) {
    item.p.name in reg || !Acceptable(item.p) || (NeedsKey(item) && noKey)
  }

  datatype Local = Local(reg: Registry, secrets: Secrets, files: Files)

  function Step(l: Local, item: Imported, noKey: bool): Local {
    if PassedOver(l.reg, item, noKey) then l else
      Local(Set(l.reg, Completed(item)),
            if HasSecret(item)
            then l.secrets[SecretRef(item.p.name) := Secret(item.password, item.passphrase)] else l.secrets,
            if NeedsKey(item)
            then l.files[KeyPath(item.p.name) := KeyFile(Material(item.keyMaterial), 0x180)] else l.files)
  }

  /** All items in order; noKeys tells whose key files could not be written. */
  function Merged(l: Local, items: seq<Imported>, noKeys: seq<bool>): Local
    requires |noKeys| == |items|
  {
    if items == [] then l else
      Step(Merged(l, items[..|items| - 1], noKeys[..|items| - 1]), items[|items| - 1], noKeys[|items| - 1])
  }

  // ----- undoing

  datatype Backup<T> = Backup(key: string, was: Option<T>)

  function Restore<T>(m: map<string, T>, b: Backup<T>): map<string, T> {
    if b.was.Some? then m[b.key := b.was.value] else m - {b.key}
  }

  /** The last change is undone first. */
  function Undone<T>(m: map<string, T>, backups: seq<Backup<T>>): map<string, T>
    decreases |backups|
  {
    if backups == [] then m else Undone(Restore(m, backups[|backups| - 1]), backups[..|backups| - 1])
  }

  /** The same when only some of the restoring writes succeed. */
  function UndoneSome<T>(m: map<string, T>, backups: seq<Backup<T>>, restored: seq<bool>): map<string, T>
    requires |restored| == |backups|
  {
    if backups == [] then m else
      var after := UndoneSome(m, backups[1..], restored[1..]);
      if restored[0] then Restore(after, backups[0]) else after
  }

  lemma {:induction false} UndoneFirst<T>(m: map<string, T>, backups: seq<Backup<T>>)
    requires backups != []
    ensures Undone(m, backups) == Restore(Undone(m, backups[1..]), backups[0])
    decreases |backups|
  {
    var n := |backups| - 1;
    if n == 0 {
      assert Undone(Restore(m, backups[0]), []) == Restore(m, backups[0]) && backups[..0] == [];
    } else {
      UndoneFirst(Restore(m, backups[n]), backups[..n]);
      assert backups[1..][..n - 1] == backups[..n][1..];
    }
  }

  lemma {:induction false} UndoneAll<T>(m: map<string, T>, backups: seq<Backup<T>>, restored: seq<bool>)
    requires |restored| == |backups| && forall i :: 0 <= i < |restored| ==> restored[i]
    ensures UndoneSome(m, backups, restored) == Undone(m, backups)
  {
    if backups != [] {
      UndoneAll(m, backups[1..], restored[1..]);
      UndoneFirst(m, backups);
    }
  }

  /** A key whose first backup is restored is as it was, whatever became of the other restoring writes. */
  lemma {:induction false} FirstRestored<T>(m: map<string, T>, backups: seq<Backup<T>>, restored: seq<bool>, i: nat)
    requires |restored| == |backups| && i < |backups| && restored[i]
    requires forall k :: 0 <= k < i ==> backups[k].key != backups[i].key
    ensures var u := UndoneSome(m, backups, restored); var b := backups[i];
      if b.was.Some? then b.key in u && u[b.key] == b.was.value else b.key !in u
  {
    if i > 0 {
      FirstRestored(m, backups[1..], restored[1..], i - 1);
    }
  }

  function Saved<T>(m: map<string, T>, key: string): Backup<T> {
    Backup(key, if key in m then Some(m[key]) else None)
  }

  /** A change whose backup is on the stack is undone, also when the same key was changed before. */
  lemma UndoneOnce<T>(m: map<string, T>, key: string, value: T, backups: seq<Backup<T>>)
    ensures Undone(m[key := value], backups + [Saved(m, key)]) == Undone(m, backups)
  {
    var b := Saved(m, key);
    assert Restore(m[key := value], b) == m;
    assert (backups + [b])[..|backups|] == backups;
  }

  datatype Outcome = Applied(added: nat) | Failed(undone: bool)

  class Store {
    var saved: Registry
    var secrets: Secrets
    var files: Files

    function Value(): Local
      reads this
    {
      Local(saved, secrets, files)
    }

    /** rollbackImport: every restoring write is tried, last change first, whatever became of the others. */
    method Rollback(keys: seq<Backup<KeyFile>>, stored: seq<Backup<Secret>>)
      returns (ok: bool, ghost filesBack: seq<bool>, ghost secretsBack: seq<bool>)
      modifies this`secrets, this`files
      ensures |filesBack| == |keys| && files == UndoneSome(old(files), keys, filesBack)
      ensures |secretsBack| == |stored| && secrets == UndoneSome(old(secrets), stored, secretsBack)
      ensures ok <==> All(filesBack) && All(secretsBack)
      ensures ok ==> secrets == Undone(old(secrets), stored) && files == Undone(old(files), keys)
    {
      hide Restore, Undone;
      ok, filesBack, secretsBack := true, [], [];
      var i := |stored|;
      while i > 0
        invariant 0 <= i <= |stored| && |secretsBack| == |stored| - i && files == old(files)
        invariant secrets == UndoneSome(old(secrets), stored[i..], secretsBack) && (ok <==> All(secretsBack))
      {
        i := i - 1;
        assert stored[i..] == [stored[i]] + stored[i + 1..];
        var fails: bool := *;
        if fails { ok := false; } else { secrets := Restore(secrets, stored[i]); }
        secretsBack := [!fails] + secretsBack;
      }
      assert stored[0..] == stored;
      i := |keys|;
      while i > 0
        invariant 0 <= i <= |keys| && |filesBack| == |keys| - i
        invariant |secretsBack| == |stored| && secrets == UndoneSome(old(secrets), stored, secretsBack)
        invariant files == UndoneSome(old(files), keys[i..], filesBack) && (ok <==> All(filesBack) && All(secretsBack))
      {
        i := i - 1;
        assert keys[i..] == [keys[i]] + keys[i + 1..];
        var fails: bool := *;
        if fails { ok := false; } else { files := Restore(files, keys[i]); }
        filesBack := [!fails] + filesBack;
      }
      assert keys[0..] == keys;
      if ok {
        UndoneAll(old(files), keys, filesBack);
        UndoneAll(old(secrets), stored, secretsBack);
      }
    }

    /** Apply: when it fails and the restoring writes succeed, secrets, key files and profiles are as they were; when it
        succeeds, they are the result of all items but the ones passed over. */
    method Apply(items: seq<Imported>) returns (r: Outcome, ghost noKeys: seq<bool>)
      modifies this
      ensures r.Failed? ==> saved == old(saved) && (r.undone ==> Value() == old(Value()))
      ensures r.Applied? ==> |noKeys| == |items| && Value() == Merged(old(Value()), items, noKeys)
    {
      noKeys := [];
      if * { return Failed(true), []; }   // the registry cannot be read
      var reg := saved;
      var keys: seq<Backup<KeyFile>> := [];
      var stored: seq<Backup<Secret>> := [];
      var added := 0;
      var ok := true;
      for i := 0 to |items|
        invariant |noKeys| == i && saved == old(saved)
        invariant Undone(secrets, stored) == old(secrets) && Undone(files, keys) == old(files)
        invariant Local(reg, secrets, files) == Merged(old(Value()), items[..i], noKeys)
      {
        ghost var before := Local(reg, secrets, files);
        var noKey;
        ok, noKey, reg, keys, stored, added := ApplyItem(reg, items[i], keys, stored, added);
        if !ok {
          var undone, _, _ := Rollback(keys, stored);
          return Failed(undone), [];
        }
        MergedStep(old(Value()), items, i, noKeys, noKey);
        noKeys := noKeys + [noKey];
      }
      if * {
        var undone, _, _ := Rollback(keys, stored);
        return Failed(undone), [];
      }
      assert items[..|items|] == items;
      saved := reg;
      return Applied(added), noKeys;
    }

    /** The body of the loop in Apply. */
    method ApplyItem(reg: Registry, item: Imported, keys0: seq<Backup<KeyFile>>, stored0: seq<Backup<Secret>>, added0: nat)
      returns (ok: bool, noKey: bool, reg2: Registry, keys: seq<Backup<KeyFile>>, stored: seq<Backup<Secret>>, added: nat)
      modifies this`secrets, this`files
      ensures Undone(secrets, stored) == Undone(old(secrets), stored0)
      ensures Undone(files, keys) == Undone(old(files), keys0)
      ensures ok ==> Local(reg2, secrets, files) == Step(Local(reg, old(secrets), old(files)), item, noKey)
    {
      ok, noKey, reg2, keys, stored, added := true, false, reg, keys0, stored0, added0;
      var p := item.p;
      if p.name in reg {
        return;
      }
      if !Acceptable(p) {
        return;
      }
      if p.identityFile == "" && item.keyMaterial != "" {
        var keyPath := KeyPath(p.name);
        var fails: bool := *;   // the old key file cannot be read, or the new one cannot be written
        if fails {
          noKey := true;
          return;
        }
        UndoneOnce(files, keyPath, KeyFile(Material(item.keyMaterial), 0x180), keys);
        keys := keys + [Saved(files, keyPath)];
        files := files[keyPath := KeyFile(Material(item.keyMaterial), 0x180)];
        p := p.(identityFile := keyPath);
      }
      if item.password != "" || item.passphrase != "" {
        var ref := SecretRef(p.name);
        var fails: bool := *;   // the old secret cannot be read, or the new one cannot be written
        if fails {
          ok := false;
          return;
        }
        UndoneOnce(secrets, ref, Secret(item.password, item.passphrase), stored);
        stored := stored + [Saved(secrets, ref)];
        secrets := secrets[ref := Secret(item.password, item.passphrase)];
        p := p.(secretRef := ref);
      }
      assert Acceptable(p);
      reg2 := Set(reg, p);
      added := added + 1;
    }
  }

  predicate All(restored: seq<bool>) {
    forall i :: 0 <= i < |restored| ==> restored[i]
  }

  lemma MergedStep(l: Local, items: seq<Imported>, i: nat, noKeys: seq<bool>, noKey: bool)
    requires i < |items| && |noKeys| == i
    ensures Merged(l, items[..i + 1], noKeys + [noKey]) == Step(Merged(l, items[..i], noKeys), items[i], noKey)
  {
    assert items[..i + 1][..i] == items[..i];
    assert (noKeys + [noKey])[..i] == noKeys;
  }

  // ----- what an import that succeeds has done

  /** A profile that was there is never lost, and stays as it is if the names of the items are trimmed. */
  lemma {:induction false} ProfilesStay(l: Local, items: seq<Imported>, noKeys: seq<bool>, name: string)
    requires |noKeys| == |items| && name in l.reg
    ensures var m := Merged(l, items, noKeys);
      && name in m.reg
      && ((forall i :: 0 <= i < |items| ==> TrimSpace(items[i].p.name) == items[i].p.name) ==>
            m.reg[name] == l.reg[name])
  {
    hide Acceptable, Completed, NeedsKey, HasSecret;
    if items != [] {
      var n := |items| - 1;
      ProfilesStay(l, items[..n], noKeys[..n], name);
      assert forall i :: 0 <= i < n ==> items[..n][i] == items[i];
      CompletedName(items[n]);
    }
  }

  lemma CompletedName(item: Imported)
    ensures Completed(item).name == item.p.name
  {
  }

  /** A secret that no item names stays as it is. */
  lemma {:induction false} SecretsStay(l: Local, items: seq<Imported>, noKeys: seq<bool>, ref: string)
    requires |noKeys| == |items| && forall i :: 0 <= i < |items| ==> SecretRef(items[i].p.name) != ref
    ensures var m := Merged(l, items, noKeys);
      (ref in m.secrets <==> ref in l.secrets) && (ref in l.secrets ==> m.secrets[ref] == l.secrets[ref])
  {
    hide Acceptable, Completed, SecretRef;
    if items != [] {
      var n := |items| - 1;
      assert forall i :: 0 <= i < n ==> items[..n][i] == items[i];
      SecretsStay(l, items[..n], noKeys[..n], ref);
    }
  }

  /** A key file that no item names stays as it is. */
  lemma {:induction false} FilesStay(l: Local, items: seq<Imported>, noKeys: seq<bool>, path: string)
    requires |noKeys| == |items| && forall i :: 0 <= i < |items| ==> KeyPath(items[i].p.name) != path
    ensures var m := Merged(l, items, noKeys);
      (path in m.files <==> path in l.files) && (path in l.files ==> m.files[path] == l.files[path])
  {
    hide Acceptable, Completed, KeyPath;
    if items != [] {
      var n := |items| - 1;
      assert forall i :: 0 <= i < n ==> items[..n][i] == items[i];
      FilesStay(l, items[..n], noKeys[..n], path);
    }
  }

  /** The last item that is not passed over and whose name is name but for blanks around it, or -1. */
  ghost function LastWriter(l: Local, items: seq<Imported>, noKeys: seq<bool>, name: string): (k: int)
    requires |noKeys| == |items|
    ensures -1 <= k < |items|
    ensures k >= 0 ==> TrimSpace(items[k].p.name) == name
  {
    if items == [] then -1 else
      var n := |items| - 1;
      if !PassedOver(Merged(l, items[..n], noKeys[..n]).reg, items[n], noKeys[n]) && TrimSpace(items[n].p.name) == name then n
      else LastWriter(l, items[..n], noKeys[..n], name)
  }

  /** Every profile after an import: it is the last item's that was not passed over under its name, or it is as it was. */
  lemma {:induction false} ProfileIsLastWriters(l: Local, items: seq<Imported>, noKeys: seq<bool>, name: string)
    requires |noKeys| == |items|
    ensures var m := Merged(l, items, noKeys); var k := LastWriter(l, items, noKeys, name);
      if k >= 0 then name in m.reg && m.reg[name] == Normal(Completed(items[k]))
      else (name in m.reg <==> name in l.reg) && (name in l.reg ==> m.reg[name] == l.reg[name])
  {
    hide Acceptable, Completed, NeedsKey, HasSecret;
    if items != [] {
      var n := |items| - 1;
      ProfileIsLastWriters(l, items[..n], noKeys[..n], name);
      CompletedName(items[n]);
    }
  }

  /** A profile that was there changes if and only if some item is not passed over whose name is that profile's with blanks
      around it, and the last such item makes another profile. */
  lemma {:induction false} ReplacedExactly(l: Local, items: seq<Imported>, noKeys: seq<bool>, name: string)
    requires |noKeys| == |items| && name in l.reg
    ensures var m := Merged(l, items, noKeys); var k := LastWriter(l, items, noKeys, name);
      && name in m.reg
      && (m.reg[name] != l.reg[name] <==> k >= 0 && Normal(Completed(items[k])) != l.reg[name])
      && (k >= 0 ==> items[k].p.name != name)
  {
    ProfileIsLastWriters(l, items, noKeys, name);
    WriterIsUntrimmed(l, items, noKeys, name);
  }

  lemma {:induction false} WriterIsUntrimmed(l: Local, items: seq<Imported>, noKeys: seq<bool>, name: string)
    requires |noKeys| == |items| && name in l.reg
    ensures var k := LastWriter(l, items, noKeys, name); k >= 0 ==> items[k].p.name != name
  {
    hide Acceptable, NeedsKey, HasSecret, Completed;
    if items != [] {
      var n := |items| - 1;
      WriterIsUntrimmed(l, items[..n], noKeys[..n], name);
      ProfilesStay(l, items[..n], noKeys[..n], name);
    }
  }

  const THERE := Profile("a", "old", 22, "", "", "")

  const UNTRIMMED := Imported(Profile(" a", "new", 22, "", "", ""), "", "", "")

  /** Such an item: its name is not taken, and trimmed it replaces the profile of a. Neither importer makes one: both trim
      the names they read. */
  lemma UntrimmedReplaces(secrets: Secrets, files: Files)
    ensures var l := Local(map["a" := THERE], secrets, files);
      Merged(l, [UNTRIMMED], [false]).reg == map["a" := THERE.(target := "new")]
  {
    var l := Local(map["a" := THERE], secrets, files);
    assert TrimSpace(" a") == "a" && TrimSpace("new") == "new" && TrimSpace("") == "";
    assert Acceptable(UNTRIMMED.p);
    assert Merged(l, [], []) == l;
    assert [UNTRIMMED][..0] == [] && [false][..0] == [];
  }

  /** An item that is not passed over has its profile, and the credentials the profile refers to, when its name is
      trimmed. */
  lemma AddedIsComplete(l: Local, item: Imported, noKey: bool)
    requires !PassedOver(l.reg, item, noKey) && TrimSpace(item.p.name) == item.p.name
    ensures var m := Step(l, item, noKey);
      && item.p.name in m.reg
      && var p := m.reg[item.p.name];
         && p.name == item.p.name && p.target == TrimSpace(item.p.target) && p.port == item.p.port
         && p.proxyJump == TrimSpace(item.p.proxyJump)
         && (forall name :: name != item.p.name ==>
               (name in m.reg <==> name in l.reg) && (name in m.reg ==> m.reg[name] == l.reg[name]))
         && (if HasSecret(item) then
               && p.secretRef == SecretRef(item.p.name)
               && m.secrets == l.secrets[SecretRef(item.p.name) := Secret(item.password, item.passphrase)]
             else p.secretRef == TrimSpace(item.p.secretRef) && m.secrets == l.secrets)
         && (if NeedsKey(item) then
               && p.identityFile == KeyPath(item.p.name)
               && m.files == l.files[KeyPath(item.p.name) := KeyFile(Material(item.keyMaterial), OWNER_ONLY)]
             else p.identityFile == TrimSpace(item.p.identityFile) && m.files == l.files)
  {
    PrefixedTrim("profile:", item.p.name, "");
    PrefixedTrim("keys/", item.p.name, ".key");
    assert SecretRef(item.p.name) == "profile:" + item.p.name + "";
  }

  lemma PrefixedTrim(prefix: string, name: string, suffix: string)
    requires prefix != "" && !IsSpace(prefix[0]) && name != "" && NoSpace(name) && NoSpace(suffix)
    ensures TrimSpace(prefix + name + suffix) == prefix + name + suffix
  {
    var s := prefix + name + suffix;
    assert s[0] == prefix[0];
    assert s[|s| - 1] == if suffix == "" then name[|name| - 1] else suffix[|suffix| - 1];
  }
}
