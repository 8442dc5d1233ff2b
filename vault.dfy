/** The vault session (src/lib/stores/vault.ts): a LOCKED/UNLOCKED machine
    holding the decrypted secret list, the cached master password and the
    idle-lock deadline. The `setTimeout` handle is a deadline on an explicit
    millisecond clock; the timer firing is the `TimerStep` event.

    Each operation is first a function from the old session (and the
    storage entries) to the new one; `VaultSession` is the store itself,
    whose methods are proved to perform exactly those steps. */
module Vault {
  import opened Common
  import opened Types
  import opened Encryption

  /** LOCK_TIMEOUT: five minutes, in milliseconds. */
  const LockTimeout: int := 5 * 60 * 1000

  datatype Session = Session(
    unlocked: bool,
    secrets: seq<Secret>,
    masterPassword: string,
    deadline: Option<int>)   // when the pending lock timer fires; None when none is pending

  const LockedSession := Session(false, [], "", None)

  /** The fields of `Omit<VaultSecret, "id" | "created_at" | "updated_at">`. */
  datatype SecretDraft = SecretDraft(name: string, category: Category, value: string, notes: string)

  /** `Partial<VaultSecret>`: None is an absent key. */
  datatype SecretPatch = SecretPatch(
    id: Option<string>,
    name: Option<string>,
    category: Option<Category>,
    value: Option<string>,
    notes: Option<string>,
    createdAt: Option<Timestamp>)

  // ---------------------------------------------------------------------
  // List transforms (pure in the source)
  // ---------------------------------------------------------------------

  function NewSecret(draft: SecretDraft, id: string, now: Timestamp): Secret {
    Secret(id, draft.name, draft.category, draft.value, draft.notes, now, now)
  }

  /** `[...s, newSecret]`. */
  function AppendSecret(secrets: seq<Secret>, draft: SecretDraft, id: string, now: Timestamp): seq<Secret> {
    secrets + [NewSecret(draft, id, now)]
  }

  /** `{ ...sec, ...updates, updated_at: now }`. */
  function Merge(sec: Secret, patch: SecretPatch, now: Timestamp): Secret {
    Secret(
      if patch.id.Some? then patch.id.value else sec.id,
      if patch.name.Some? then patch.name.value else sec.name,
      if patch.category.Some? then patch.category.value else sec.category,
      if patch.value.Some? then patch.value.value else sec.value,
      if patch.notes.Some? then patch.notes.value else sec.notes,
      if patch.createdAt.Some? then patch.createdAt.value else sec.createdAt,
      now)
  }

  /** `s.map((sec) => sec.id === id ? merged : sec)`. */
  function UpdateSecrets(secrets: seq<Secret>, id: string, patch: SecretPatch, now: Timestamp): seq<Secret> {
    seq(|secrets|, i requires 0 <= i < |secrets| =>
      if secrets[i].id == id then Merge(secrets[i], patch, now) else secrets[i])
  }

  /** `s.filter((sec) => sec.id !== id)`. */
  function RemoveSecrets(secrets: seq<Secret>, id: string): seq<Secret> {
    Filter(secrets, (sec: Secret) => sec.id != id)
  }

  predicate SecretMatches(sec: Secret, lowerQuery: string) {
    || Includes(Lower(sec.name), lowerQuery)
    || Includes(Lower(CategoryName(sec.category)), lowerQuery)
    || Includes(Lower(sec.notes), lowerQuery)
  }

  /** The `filteredSecrets` derived store. */
  function FilteredSecrets(secrets: seq<Secret>, query: string): seq<Secret> {
    if query == "" then secrets
    else Filter(secrets, (sec: Secret) => SecretMatches(sec, Lower(query)))
  }

  // ---------------------------------------------------------------------
  // Session transitions
  // ---------------------------------------------------------------------

  /** `resetLockTimer`: any pending timer is replaced by one due five minutes from now. */
  function Rearm(s: Session, now: int): Session {
    s.(deadline := Some(now + LockTimeout))
  }

  /** `lockVault`. */
  function LockStep(s: Session): Session {
    Session(false, [], "", None)
  }

  /** `unlockVault`: the success flag and the new session. */
  function UnlockStep(p: Primitives, items: Items, s: Session, password: string, now: int): (bool, Session) {
    match LoadVault(p, items, password)
    case Failure(_) => (false, s)
    case Success(secrets) => (true, Rearm(Session(true, secrets, password, s.deadline), now))
  }

  /** `createVault`: the password is cached before the save; if the save fails
      nothing else changes. */
  function CreateStep(p: Primitives, items: Items, s: Session, password: string, now: int,
                      freshSalt: Salt, iv: Iv): (Items, Session) {
    var w := SaveVault(p, items, [], password, freshSalt, iv);
    if w.result.Failure? then (items, s.(masterPassword := password))
    else (w.items, Rearm(Session(true, [], password, s.deadline), now))
  }

  /** `addSecret`: re-arms the timer, appends, and saves the whole new list. */
  function AddStep(p: Primitives, items: Items, s: Session, draft: SecretDraft, id: string, now: int,
                   freshSalt: Salt, iv: Iv): (Items, Session) {
    var updated := AppendSecret(s.secrets, draft, id, now);
    (SaveVault(p, items, updated, s.masterPassword, freshSalt, iv).items, Rearm(s, now).(secrets := updated))
  }

  function UpdateStep(p: Primitives, items: Items, s: Session, id: string, patch: SecretPatch, now: int,
                      freshSalt: Salt, iv: Iv): (Items, Session) {
    var updated := UpdateSecrets(s.secrets, id, patch, now);
    (SaveVault(p, items, updated, s.masterPassword, freshSalt, iv).items, Rearm(s, now).(secrets := updated))
  }

  function RemoveStep(p: Primitives, items: Items, s: Session, id: string, now: int,
                      freshSalt: Salt, iv: Iv): (Items, Session) {
    var updated := RemoveSecrets(s.secrets, id);
    (SaveVault(p, items, updated, s.masterPassword, freshSalt, iv).items, Rearm(s, now).(secrets := updated))
  }

  /** The clock reaching `now`: a pending timer that is due locks the vault. */
  function TimerStep(s: Session, now: int): Session {
    if s.deadline.Some? && s.deadline.value <= now then LockStep(s) else s
  }

  // ---------------------------------------------------------------------
  // Properties of the list transforms
  // ---------------------------------------------------------------------

  /** addSecret appends one secret with the given id, the draft's fields and equal
      timestamps; earlier ones stay in place. */
  lemma AppendSecretShape(secrets: seq<Secret>, draft: SecretDraft, id: string, now: Timestamp)
    ensures var r := AppendSecret(secrets, draft, id, now);
            && |r| == |secrets| + 1
            && r[..|secrets|] == secrets
            && r[|secrets|].id == id && r[|secrets|].createdAt == r[|secrets|].updatedAt == now
            && r[|secrets|].name == draft.name && r[|secrets|].value == draft.value
            && r[|secrets|].category == draft.category && r[|secrets|].notes == draft.notes
  {
  }

  /** updateSecret keeps length and order, leaves every other secret alone, and in each
      matching one takes every field the patch gives, keeps every field it omits and
      refreshes updated_at. */
  lemma UpdateSecretsShape(secrets: seq<Secret>, id: string, patch: SecretPatch, now: Timestamp)
    ensures var r := UpdateSecrets(secrets, id, patch, now);
            && |r| == |secrets|
            && (forall i :: 0 <= i < |r| && secrets[i].id != id ==> r[i] == secrets[i])
            && (forall i :: 0 <= i < |r| && secrets[i].id == id ==>
                  && r[i].updatedAt == now
                  && r[i].id == (if patch.id.Some? then patch.id.value else id)
                  && r[i].name == (if patch.name.Some? then patch.name.value else secrets[i].name)
                  && r[i].category == (if patch.category.Some? then patch.category.value else secrets[i].category)
                  && r[i].value == (if patch.value.Some? then patch.value.value else secrets[i].value)
                  && r[i].notes == (if patch.notes.Some? then patch.notes.value else secrets[i].notes)
                  && r[i].createdAt == (if patch.createdAt.Some? then patch.createdAt.value else secrets[i].createdAt))
  {
  }

  /** Applying the same patch twice at the same time changes nothing more, unless the patch renames the id. */
  lemma {:induction false} UpdateSecretsIdempotent(secrets: seq<Secret>, id: string, patch: SecretPatch, now: Timestamp)
    requires patch.id.None? || patch.id == Some(id)
    ensures UpdateSecrets(UpdateSecrets(secrets, id, patch, now), id, patch, now) == UpdateSecrets(secrets, id, patch, now)
  {
    var once := UpdateSecrets(secrets, id, patch, now);
    var twice := UpdateSecrets(once, id, patch, now);
    forall i | 0 <= i < |secrets| ensures twice[i] == once[i] {
      if secrets[i].id == id {
        assert once[i].id == id;
        assert Merge(once[i], patch, now) == once[i];
      }
    }
  }

  /** removeSecret keeps exactly the secrets with another id, each as often as before,
      in their original order. */
  lemma RemoveSecretsSpec(secrets: seq<Secret>, id: string, front: seq<Secret>, back: seq<Secret>)
    ensures forall x :: x in RemoveSecrets(secrets, id) <==> x in secrets && x.id != id
    ensures forall x :: multiset(RemoveSecrets(secrets, id))[x] == if x.id != id then multiset(secrets)[x] else 0
    ensures RemoveSecrets(front + back, id) == RemoveSecrets(front, id) + RemoveSecrets(back, id)
  {
    FilterMembers(secrets, (sec: Secret) => sec.id != id);
    FilterCounts(secrets, (sec: Secret) => sec.id != id);
    FilterAppend(front, back, (sec: Secret) => sec.id != id);
  }

  /** Removing the id of a secret just added with a fresh id restores the list. */
  lemma RemoveUndoesAdd(secrets: seq<Secret>, draft: SecretDraft, id: string, now: Timestamp)
    requires forall i :: 0 <= i < |secrets| ==> secrets[i].id != id
    ensures RemoveSecrets(AppendSecret(secrets, draft, id, now), id) == secrets
  {
    var keep := (sec: Secret) => sec.id != id;
    FilterAppend(secrets, [NewSecret(draft, id, now)], keep);
    FilterKeepsAll(secrets, keep);
  }

  lemma {:induction false} LowerIdempotent(s: string)
    ensures |Lower(s)| == |s|
    ensures Lower(Lower(s)) == Lower(s)
  {
    if s != [] {
      LowerIdempotent(s[1..]);
    }
  }

  /** filteredSecrets: the whole list for an empty query; otherwise the
      order-preserving sub-list whose lowercased name, category or notes
      contain the lowercased query; and the query's case does not matter. */
  lemma FilteredSecretsSpec(secrets: seq<Secret>, query: string, front: seq<Secret>, back: seq<Secret>)
    ensures query == "" ==> FilteredSecrets(secrets, query) == secrets
    ensures query != "" ==> forall x :: x in FilteredSecrets(secrets, query) <==> x in secrets && SecretMatches(x, Lower(query))
    ensures query != "" ==> forall x :: multiset(FilteredSecrets(secrets, query))[x]
                                        == if SecretMatches(x, Lower(query)) then multiset(secrets)[x] else 0
    ensures FilteredSecrets(front + back, query) == FilteredSecrets(front, query) + FilteredSecrets(back, query)
    ensures FilteredSecrets(secrets, Lower(query)) == FilteredSecrets(secrets, query)
  {
    var m := (sec: Secret) => SecretMatches(sec, Lower(query));
    FilterMembers(secrets, m);
    FilterCounts(secrets, m);
    FilterAppend(front, back, m);
    LowerIdempotent(query);
    if query != "" {
      assert Lower(query) != "";
      var m2 := (sec: Secret) => SecretMatches(sec, Lower(Lower(query)));
      assert forall sec :: m2(sec) == m(sec);
      assert m2 == m;
    }
  }

  /** The secret value is never searched. */
  lemma ValueNotSearched(sec: Secret, v: string, lowerQuery: string)
    ensures SecretMatches(sec.(value := v), lowerQuery) == SecretMatches(sec, lowerQuery)
  {
  }

  // ---------------------------------------------------------------------
  // Properties of the session machine
  // ---------------------------------------------------------------------

  /** lockVault empties the session and cancels the timer; locking twice is locking once. */
  lemma LockIdempotent(s: Session)
    ensures LockStep(s) == LockedSession
    ensures LockStep(LockStep(s)) == LockStep(s)
  {
  }

  /** unlockVault succeeds exactly when loading does, and then installs the loaded
      list, the password and a fresh deadline; on failure nothing changes. */
  lemma UnlockOutcome(p: Primitives, items: Items, s: Session, password: string, now: int)
    ensures var (ok, s') := UnlockStep(p, items, s, password, now);
            && (ok <==> LoadVault(p, items, password).Success?)
            && (ok ==> s' == Session(true, LoadVault(p, items, password).value, password, Some(now + LockTimeout)))
            && (!ok ==> s' == s)
  {
  }

  /** createVault never consults an existing blob: on a successful save the new vault
      is empty and unlocked, whatever was stored before. */
  lemma CreateOverwrites(p: Primitives, items: Items, s: Session, password: string, now: int,
                         freshSalt: Salt, iv: Iv)
    requires Sound(p)
    requires SaveVault(p, items, [], password, freshSalt, iv).result.Success?
    ensures var (items', s') := CreateStep(p, items, s, password, now, freshSalt, iv);
            && s' == Session(true, [], password, Some(now + LockTimeout))
            && LoadVault(p, items', password) == Success([])
  {
    SaveLoadRoundTrip(p, items, [], password, freshSalt, iv);
  }

  /** Every unlock re-arms one deadline; reaching it with no reset locks the vault, and
      any earlier instant leaves the session alone. */
  lemma IdleAutoLock(p: Primitives, items: Items, s: Session, password: string, now: int, later: int)
    requires UnlockStep(p, items, s, password, now).0
    ensures var s' := UnlockStep(p, items, s, password, now).1;
            && (later >= now + LockTimeout ==> TimerStep(s', later) == LockedSession)
            && (later < now + LockTimeout ==> TimerStep(s', later) == s')
  {
  }

  /** A successful create unlocks the vault under the given password; every add,
      update or remove keeps the lock state and password. Each of them replaces the
      pending deadline by one five minutes after the operation, and the vault locks
      when the clock reaches it. */
  lemma MutationsRearm(p: Primitives, items: Items, s: Session, password: string, draft: SecretDraft, id: string,
                       patch: SecretPatch, now: int, freshSalt: Salt, iv: Iv)
    ensures SaveVault(p, items, [], password, freshSalt, iv).result.Success? ==>
              var s' := CreateStep(p, items, s, password, now, freshSalt, iv).1;
              && s'.deadline == Some(now + LockTimeout) && s'.unlocked && s'.masterPassword == password
              && TimerStep(s', now + LockTimeout) == LockedSession
    ensures var s' := AddStep(p, items, s, draft, id, now, freshSalt, iv).1;
            && s'.deadline == Some(now + LockTimeout) && s'.unlocked == s.unlocked && s'.masterPassword == s.masterPassword
            && TimerStep(s', now + LockTimeout) == LockedSession
    ensures var s' := UpdateStep(p, items, s, id, patch, now, freshSalt, iv).1;
            && s'.deadline == Some(now + LockTimeout) && s'.unlocked == s.unlocked && s'.masterPassword == s.masterPassword
            && TimerStep(s', now + LockTimeout) == LockedSession
    ensures var s' := RemoveStep(p, items, s, id, now, freshSalt, iv).1;
            && s'.deadline == Some(now + LockTimeout) && s'.unlocked == s.unlocked && s'.masterPassword == s.masterPassword
            && TimerStep(s', now + LockTimeout) == LockedSession
  {
  }

  /** Scenario: create, lock and unlock with the same password gives an unlocked, empty vault. */
  lemma EmptyVaultRoundTrip(p: Primitives, items: Items, s: Session, password: string, t0: int, t1: int,
                            freshSalt: Salt, iv: Iv)
    requires Sound(p)
    requires SaveVault(p, items, [], password, freshSalt, iv).result.Success?
    ensures var (items1, s1) := CreateStep(p, items, s, password, t0, freshSalt, iv);
            var (ok, s3) := UnlockStep(p, items1, LockStep(s1), password, t1);
            && s1.unlocked && s1.secrets == []
            && ok && s3.unlocked && s3.secrets == []
  {
    SaveLoadRoundTrip(p, items, [], password, freshSalt, iv);
  }

  /** Scenario: a secret added after create is there again after a lock/unlock cycle. */
  lemma MutationPersists(p: Primitives, items: Items, s: Session, password: string, draft: SecretDraft,
                         id: string, t0: int, t1: int, t2: int, salt0: Salt, iv0: Iv, salt1: Salt, iv1: Iv)
    requires Sound(p)
    requires SaveVault(p, items, [], password, salt0, iv0).result.Success?
    ensures var (items1, s1) := CreateStep(p, items, s, password, t0, salt0, iv0);
            var (items2, s2) := AddStep(p, items1, s1, draft, id, t1, salt1, iv1);
            var (ok, s3) := UnlockStep(p, items2, LockStep(s2), password, t2);
            ok && s3.secrets == [NewSecret(draft, id, t1)]
  {
    var (items1, s1) := CreateStep(p, items, s, password, t0, salt0, iv0);
    var updated := AppendSecret([], draft, id, t1);
    assert updated == [NewSecret(draft, id, t1)];
    SaveKeepsWorking(p, items, [], password, salt0, iv0, updated, password, salt1, iv1);
    SaveLoadRoundTrip(p, items1, updated, password, salt1, iv1);
  }

  /** Scenario: unlocking with a password whose derived key differs fails and leaves the session locked. */
  lemma WrongPasswordStaysLocked(p: Primitives, items: Items, s: Session, password: string, other: string,
                                 t0: int, t1: int, freshSalt: Salt, iv: Iv)
    requires Sound(p) && RejectsOtherKeys(p)
    requires SaveVault(p, items, [], password, freshSalt, iv).result.Success?
    requires var salt := SaltFor(p, items, freshSalt).result.value;
             DeriveKey(p, other, salt) != DeriveKey(p, password, salt)
    ensures var (items1, s1) := CreateStep(p, items, s, password, t0, freshSalt, iv);
            var (ok, s3) := UnlockStep(p, items1, LockStep(s1), other, t1);
            !ok && s3 == LockedSession
  {
    WrongPasswordRejected(p, items, [], password, other, freshSalt, iv);
  }

  // ---------------------------------------------------------------------
  // The store
  // ---------------------------------------------------------------------

  class VaultSession {
    const storage: VaultStorage
    var unlocked: bool
    var secrets: seq<Secret>
    var masterPassword: string
    var deadline: Option<int>
    var searchQuery: string

    function State(): Session
      reads this
    {
      Session(unlocked, secrets, masterPassword, deadline)
    }

    constructor (storage: VaultStorage)
      ensures this.storage == storage
      ensures State() == LockedSession && searchQuery == ""
    {
      this.storage := storage;
      unlocked := false;
      secrets := [];
      masterPassword := "";
      deadline := None;
      searchQuery := "";
    }

    /** The `filteredSecrets` derived store over the current fields. */
    function Filtered(): seq<Secret>
      reads this
    {
      FilteredSecrets(secrets, searchQuery)
    }

    method ResetLockTimer(now: int)
      modifies this
      ensures State() == Rearm(old(State()), now) && searchQuery == old(searchQuery)
    {
      deadline := Some(now + LockTimeout);
    }

    method HasVault() returns (b: bool)
      ensures b == VaultExists(storage.items)
    {
      b := storage.Exists();
    }

    method UnlockVault(password: string, now: int) returns (ok: bool)
      modifies this
      ensures (ok, State()) == UnlockStep(storage.prims, storage.items, old(State()), password, now)
      ensures searchQuery == old(searchQuery)
    {
      var loaded := storage.Load(password);
      if loaded.Failure? {
        return false;
      }
      secrets := loaded.value;
      unlocked := true;
      masterPassword := password;
      ResetLockTimer(now);
      ok := true;
    }

    /** The awaited save's outcome is returned, so a failed save is the rejected promise. */
    method CreateVault(password: string, now: int, freshSalt: Salt, iv: Iv) returns (saved: Result<(), VaultError>)
      modifies this, storage
      ensures (storage.items, State()) == CreateStep(storage.prims, old(storage.items), old(State()), password, now, freshSalt, iv)
      ensures saved == SaveVault(storage.prims, old(storage.items), [], password, freshSalt, iv).result
      ensures saved.Failure? ==> unlocked == old(unlocked) && secrets == old(secrets) && deadline == old(deadline)
      ensures searchQuery == old(searchQuery)
    {
      masterPassword := password;
      saved := storage.Save([], password, freshSalt, iv);
      if saved.Failure? {
        return;
      }
      secrets := [];
      unlocked := true;
      ResetLockTimer(now);
    }

    method LockVault()
      modifies this
      ensures State() == LockStep(old(State())) && searchQuery == old(searchQuery)
    {
      unlocked := false;
      secrets := [];
      masterPassword := "";
      deadline := None;
    }

    method AddSecret(draft: SecretDraft, id: string, now: int, freshSalt: Salt, iv: Iv)
      modifies this, storage
      ensures (storage.items, State()) == AddStep(storage.prims, old(storage.items), old(State()), draft, id, now, freshSalt, iv)
      ensures searchQuery == old(searchQuery)
    {
      ResetLockTimer(now);
      var newSecret := Secret(id, draft.name, draft.category, draft.value, draft.notes, now, now);
      var updated := secrets + [newSecret];
      var _ := storage.Save(updated, masterPassword, freshSalt, iv);
      secrets := updated;
    }

    method UpdateSecret(id: string, patch: SecretPatch, now: int, freshSalt: Salt, iv: Iv)
      modifies this, storage
      ensures (storage.items, State()) == UpdateStep(storage.prims, old(storage.items), old(State()), id, patch, now, freshSalt, iv)
      ensures searchQuery == old(searchQuery)
    {
      ResetLockTimer(now);
      var updated := UpdateSecrets(secrets, id, patch, now);
      var _ := storage.Save(updated, masterPassword, freshSalt, iv);
      secrets := updated;
    }

    method RemoveSecret(id: string, now: int, freshSalt: Salt, iv: Iv)
      modifies this, storage
      ensures (storage.items, State()) == RemoveStep(storage.prims, old(storage.items), old(State()), id, now, freshSalt, iv)
      ensures searchQuery == old(searchQuery)
    {
      ResetLockTimer(now);
      var updated := RemoveSecrets(secrets, id);
      var _ := storage.Save(updated, masterPassword, freshSalt, iv);
      secrets := updated;
    }

    /** The lock timer's callback, delivered when the clock reaches `now`. */
    method TimerFires(now: int)
      modifies this
      ensures State() == TimerStep(old(State()), now) && searchQuery == old(searchQuery)
    {
      if deadline.Some? && deadline.value <= now {
        LockVault();
      }
    }
  }
}
