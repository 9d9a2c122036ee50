/** Creating a user's key: find it, else insert a new one, else fetch what someone else has inserted meanwhile. */
module UserKeys {
  import opened Wrappers

  type Key(==, !new)
  type Wrapped(==, !new)

  /** The ciphers: wrapping user keys with the master key, sealing texts with a user key, and the older tokens. */
  datatype Crypto = Crypto(
    wrap: Key -> Wrapped,
    unwrap: Wrapped -> Key,
    seal: (Key, string, string) -> string,
    unseal: (Key, string) -> Option<string>,
    oldToken: string -> string,
    readOld: string -> Option<string>)

  const PREFIX := "uk1:"

  /** Does s start with p? */
  predicate StartsWith(s: string, p: string) {
    |p| <= |s| && s[..|p|] == p
  }

  /** What is wrapped or sealed can be read again, whatever the nonce, and an older token is not taken for a new one. */
  ghost predicate Lawful(c: Crypto) {
    && (forall k :: c.unwrap(c.wrap(k)) == k)
    && (forall k, nonce, text :: c.unseal(k, c.seal(k, nonce, text)) == Some(text))
    && (forall text :: c.readOld(c.oldToken(text)) == Some(text) && !StartsWith(c.oldToken(text), PREFIX))
  }

  // ----- One caller among others

  // An insert that fails although there was no key yet: either the key is stored nevertheless, or it is not.
  datatype Fault = NoFault | StoredAnyway | Lost

  /** The key documents of one user; the index allows one. */
  class KeyStore {
    var doc: Option<Wrapped>

    constructor ()
      ensures doc == None
    {
      doc := None;
    }

    method InsertOne(w: Wrapped, fault: Fault) returns (ok: bool)
      modifies this
      ensures ok == (old(doc).None? && fault.NoFault?)
      ensures doc == if old(doc).Some? then old(doc) else if fault.Lost? then None else Some(w)
    {
      ok := doc.None? && fault.NoFault?;
      if doc.None? && !fault.Lost? {
        doc := Some(w);
      }
    }

    /** What other callers do to the store while this one waits. */
    method Meanwhile(rival: Option<Wrapped>)
      modifies this
      ensures doc == if old(doc).Some? then old(doc) else rival
    {
      if doc.None? {
        doc := rival;
      }
    }

    /** The key is the stored one, or none was there to be fetched after a failed insert. made is a new key; the
        rivals are what others store before the insert and before the second look. */
    method GetOrCreate(c: Crypto, made: Key, before: Option<Wrapped>, fault: Fault,
                       after: Option<Wrapped>) returns (key: Key)
      requires Lawful(c)
      modifies this
      ensures doc.Some? ==> key == c.unwrap(doc.value)
      ensures doc.None? <==> old(doc).None? && before.None? && fault.Lost? && after.None?
      ensures doc.None? ==> key == made
      ensures old(doc).Some? ==> doc == old(doc)
    {
      if doc.Some? {
        return c.unwrap(doc.value);
      }
      var wrapped := c.wrap(made);
      Meanwhile(before);
      var ok := InsertOne(wrapped, fault);
      if !ok {
        Meanwhile(after);
        if doc.Some? {
          return c.unwrap(doc.value);
        }
      }
      key := made;
    }
  }

  // ----- Any number of callers

  /** Where a caller stands; a caller that has found no key carries the new one it has made. */
  datatype Caller = Asking | Inserting(made: Key) | Fetching(made: Key) | Done(key: Key)

  /** One user's store and everyone who asks for the key; unsaved: who came back with a key that was not stored;
      keys: the new keys made, by caller; owner: whose key is the stored one. */
  datatype Race = Race(doc: Option<Wrapped>, callers: map<nat, Caller>, unsaved: set<nat>, keys: map<nat, Key>, owner: Option<nat>)

  datatype Action = Ask(who: nat) | Find(who: nat, made: Key) | Insert(who: nat, fault: Fault) | Fetch(who: nat)

  predicate Enabled(r: Race, a: Action) {
    match a
    case Ask(i) => i !in r.callers
    case Find(i, _) => i in r.callers && r.callers[i].Asking?
    case Insert(i, _) => i in r.callers && r.callers[i].Inserting?
    case Fetch(i) => i in r.callers && r.callers[i].Fetching?
  }

  function Apply(c: Crypto, r: Race, a: Action): Race {
    if !Enabled(r, a) then r else
    match a
    case Ask(i) => r.(callers := r.callers[i := Asking])
    case Find(i, made) =>
      if r.doc.Some? then r.(callers := r.callers[i := Done(c.unwrap(r.doc.value))])
      else r.(callers := r.callers[i := Inserting(made)], keys := r.keys[i := made])
    case Insert(i, fault) =>
      var made := r.callers[i].made;
      var ok := r.doc.None? && fault.NoFault?;
      var stored := r.doc.None? && !fault.Lost?;
      r.(doc := if stored then Some(c.wrap(made)) else r.doc, owner := if stored then Some(i) else r.owner,
         callers := r.callers[i := if ok then Done(made) else Fetching(made)])
    case Fetch(i) =>
      if r.doc.Some? then r.(callers := r.callers[i := Done(c.unwrap(r.doc.value))])
      else r.(callers := r.callers[i := Done(r.callers[i].made)], unsaved := r.unsaved + {i})
  }

  function Exec(c: Crypto, acts: seq<Action>): Race {
    if acts == [] then Race(None, map[], {}, map[], None) else Apply(c, Exec(c, acts[..|acts| - 1]), acts[|acts| - 1])
  }

  /** Any interleaving of callers that come, look, insert and look again. */
  predicate Interleaving(c: Crypto, acts: seq<Action>) {
    acts == [] ||
    var n := |acts| - 1;
    Interleaving(c, acts[..n]) && Enabled(Exec(c, acts[..n]), acts[n])
  }

  /** No insert fails while there is no key, unless the key is stored nevertheless. */
  ghost predicate NothingLost(acts: seq<Action>) {
    forall a :: a in acts && a.Insert? ==> !a.fault.Lost?
  }

  /** Who is done has the stored key, or is known to have come back with an unsaved one; who is looking again after a
      failed insert finds a key, if nothing is lost. */
  ghost predicate Agreed(c: Crypto, r: Race) {
    && (forall i :: i in r.callers && r.callers[i].Done? && i !in r.unsaved ==>
          r.doc.Some? && r.callers[i].key == c.unwrap(r.doc.value))
    && (forall i :: i in r.unsaved ==> i in r.callers && r.callers[i].Done?)
  }

  lemma StepAgreed(c: Crypto, r: Race, a: Action)
    requires Lawful(c) && Agreed(c, r) && Enabled(r, a)
    ensures Agreed(c, Apply(c, r, a))
    ensures r.doc.Some? ==> Apply(c, r, a).doc == r.doc
  {
  }

  lemma {:induction false} RaceAgreed(c: Crypto, acts: seq<Action>)
    requires Lawful(c) && Interleaving(c, acts)
    ensures Agreed(c, Exec(c, acts))
  {
    if acts != [] {
      var n := |acts| - 1;
      RaceAgreed(c, acts[..n]);
      StepAgreed(c, Exec(c, acts[..n]), acts[n]);
    }
  }

  lemma {:induction false} NothingLostNothingUnsaved(c: Crypto, acts: seq<Action>)
    requires Lawful(c) && Interleaving(c, acts) && NothingLost(acts)
    ensures var r := Exec(c, acts);
      r.unsaved == {} && forall i :: i in r.callers && r.callers[i].Fetching? ==> r.doc.Some?
  {
    if acts != [] {
      assert acts[|acts| - 1] in acts;
      NothingLostNothingUnsaved(c, acts[..|acts| - 1]);
    }
  }

  /** Whatever the interleaving, if inserts fail only over a key that is there, all callers get the one stored key. */
  lemma AllGetTheStoredKey(c: Crypto, acts: seq<Action>, i: nat)
    requires Lawful(c) && Interleaving(c, acts) && NothingLost(acts)
    requires i in Exec(c, acts).callers && Exec(c, acts).callers[i].Done?
    ensures Exec(c, acts).doc.Some? && Exec(c, acts).callers[i].key == c.unwrap(Exec(c, acts).doc.value)
  {
    RaceAgreed(c, acts);
    NothingLostNothingUnsaved(c, acts);
  }

  /** A stored key stays, so callers agree across time. */
  lemma {:induction false} KeyStays(c: Crypto, acts: seq<Action>, more: seq<Action>)
    requires Lawful(c) && Interleaving(c, acts + more) && Exec(c, acts).doc.Some?
    ensures Exec(c, acts + more).doc == Exec(c, acts).doc
  {
    if more == [] {
      assert acts + more == acts;
    } else {
      var n := |more| - 1;
      assert (acts + more)[..|acts| + n] == acts + more[..n];
      KeyStays(c, acts, more[..n]);
    }
  }

  // ----- Encrypting and decrypting

  function Encrypt(c: Crypto, key: Key, nonce: string, text: string): string {
    PREFIX + c.seal(key, nonce, text)
  }

  /** A text with the prefix is read with the user's key, any other one as an older token. */
  function Decrypt(c: Crypto, key: Key, cipher: string): Option<string> {
    if StartsWith(cipher, PREFIX) then c.unseal(key, cipher[|PREFIX|..]) else c.readOld(cipher)
  }

  lemma SealedIsRead(c: Crypto, key: Key, nonce: string, text: string)
    requires Lawful(c)
    ensures Decrypt(c, key, Encrypt(c, key, nonce, text)) == Some(text)
  {
    assert Encrypt(c, key, nonce, text)[|PREFIX|..] == c.seal(key, nonce, text);
  }

  /** What one caller has encrypted any later caller can decrypt, and older tokens are read as ever. */
  lemma EncryptedIsDecrypted(c: Crypto, acts: seq<Action>, more: seq<Action>, i: nat, j: nat, nonce: string,
                             text: string)
    requires Lawful(c) && NothingLost(acts + more) && Interleaving(c, acts) && Interleaving(c, acts + more)
    requires i in Exec(c, acts).callers && Exec(c, acts).callers[i].Done?
    requires j in Exec(c, acts + more).callers && Exec(c, acts + more).callers[j].Done?
    ensures var mine, theirs := Exec(c, acts).callers[i].key, Exec(c, acts + more).callers[j].key;
      && Decrypt(c, theirs, Encrypt(c, mine, nonce, text)) == Some(text)
      && Decrypt(c, theirs, c.oldToken(text)) == Some(text)
  {
    forall a | a in acts ensures a in acts + more {}
    AllGetTheStoredKey(c, acts, i);
    AllGetTheStoredKey(c, acts + more, j);
    KeyStays(c, acts, more);
    SealedIsRead(c, Exec(c, acts).callers[i].key, nonce, text);
  }

  // ----- When an insert is lost

  /** Every caller that is done has the stored key. */
  ghost predicate AllHoldStored(c: Crypto, r: Race) {
    forall i :: i in r.callers && r.callers[i].Done? ==> r.doc.Some? && r.callers[i].key == c.unwrap(r.doc.value)
  }

  ghost predicate KeysDiffer(r: Race) {
    forall i, k :: i in r.keys && k in r.keys && i != k ==> r.keys[i] != r.keys[k]
  }

  /** Whose key is stored, and whose is not. */
  ghost predicate Owned(c: Crypto, r: Race) {
    && (r.doc.Some? <==> r.owner.Some?)
    && (r.owner.Some? ==> r.owner.value in r.keys && r.doc == Some(c.wrap(r.keys[r.owner.value])))
    && (forall i :: i in r.callers && r.callers[i].Inserting? ==> i in r.keys && r.keys[i] == r.callers[i].made && r.owner != Some(i))
    && (forall i :: i in r.callers && r.callers[i].Fetching? ==> i in r.keys && r.keys[i] == r.callers[i].made)
    && (forall i :: i in r.callers && r.callers[i].Asking? ==> i !in r.keys)
    && (forall i :: i in r.keys ==> i in r.callers)
    && (forall i :: i in r.unsaved ==> i in r.keys && i in r.callers && r.callers[i] == Done(r.keys[i]) && r.owner != Some(i))
  }

  lemma StepOwned(c: Crypto, r: Race, a: Action)
    requires Owned(c, r) && Enabled(r, a)
    ensures Owned(c, Apply(c, r, a))
  {
  }

  lemma {:induction false} RaceOwned(c: Crypto, acts: seq<Action>)
    requires Interleaving(c, acts)
    ensures Owned(c, Exec(c, acts))
  {
    if acts != [] {
      var n := |acts| - 1;
      RaceOwned(c, acts[..n]);
      StepOwned(c, Exec(c, acts[..n]), acts[n]);
    }
  }

  /** Whoever looks again after a failed insert finds a key. */
  ghost predicate EveryFetchFinds(c: Crypto, acts: seq<Action>) {
    forall k :: 0 <= k < |acts| && acts[k].Fetch? ==> Exec(c, acts[..k]).doc.Some?
  }

  lemma {:induction false} UnsavedIffVain(c: Crypto, acts: seq<Action>, n: nat)
    requires Interleaving(c, acts) && n <= |acts|
    ensures Interleaving(c, acts[..n])
    ensures Exec(c, acts[..n]).unsaved == {} <==>
            forall k :: 0 <= k < n && acts[k].Fetch? ==> Exec(c, acts[..k]).doc.Some?
    decreases |acts|, n
  {
    assert acts[..|acts|] == acts;
    if n < |acts| {
      var m := |acts| - 1;
      UnsavedIffVain(c, acts[..m], n);
      assert acts[..m][..n] == acts[..n] && forall k :: 0 <= k < n ==> acts[..m][..k] == acts[..k];
    } else if n > 0 {
      UnsavedIffVain(c, acts, n - 1);
      assert acts[..n][..n - 1] == acts[..n - 1];
    }
  }

  /** As long as no two new keys are alike: all callers have the stored key exactly if every look after a failed insert
      finds a key. */
  lemma AllHoldStoredIff(c: Crypto, acts: seq<Action>)
    requires Lawful(c) && Interleaving(c, acts) && KeysDiffer(Exec(c, acts))
    ensures AllHoldStored(c, Exec(c, acts)) <==> EveryFetchFinds(c, acts)
  {
    var r := Exec(c, acts);
    RaceAgreed(c, acts);
    RaceOwned(c, acts);
    UnsavedIffVain(c, acts, |acts|);
    assert acts[..|acts|] == acts;
    hide Exec, Interleaving;
    if i :| i in r.unsaved {
      if r.doc.Some? {
        assert c.unwrap(r.doc.value) == r.keys[r.owner.value];
      }
    }
  }
}
