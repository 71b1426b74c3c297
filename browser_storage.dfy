/**
 * BrowserStorage: the persistent store, an IndexedDB object store of
 * documents keyed by id. Each document carries sync metadata; with a crypto
 * provider configured, values are stored encrypted and decrypted on read.
 */
module BrowserStore {
  import opened Wrappers
  import opened JsValues
  import opened Keys

  /** Document metadata. */
  datatype Metadata = Metadata(version: int, lastSyncedAt: int, isDirty: bool, encrypted: bool)

  /** A stored document: its id, its data (ciphertext when encrypted), its metadata. */
  datatype Doc = Doc(id: string, data: Value, metadata: Metadata)

  /**
   * The crypto provider's two operations: `encrypt` yields a ciphertext
   * string; `decrypt` yields the value, or None where it throws.
   */
  datatype CryptoProvider = CryptoProvider(encrypt: Value -> string, decrypt: string -> Option<Value>)

  datatype StorageError = DatabaseNotInitialized

  /**
   * The document `put(key, value)` writes: the data is the ciphertext when a
   * provider is configured and the value itself otherwise; a new document
   * starts at version 1, stamped `now`, dirty; an existing one keeps its
   * version and `lastSyncedAt` and is flagged dirty again. Either way
   * `encrypted` says whether this write was encrypted.
   */
  function StoredDoc(existing: Option<Doc>, key: string, value: Value, crypto: Option<CryptoProvider>, now: int): (d: Doc)
    ensures d.id == key && d.metadata.isDirty
    ensures d.metadata.encrypted <==> crypto.Some?
    ensures d.data == if crypto.Some? then Str(crypto.value.encrypt(value)) else value
    ensures existing.None? ==> d.metadata.version == 1 && d.metadata.lastSyncedAt == now
    ensures existing.Some? ==>
      d.metadata.version == existing.value.metadata.version
      && d.metadata.lastSyncedAt == existing.value.metadata.lastSyncedAt
  {
    var encrypted := crypto.Some?;
    var data := if encrypted then Str(crypto.value.encrypt(value)) else value;
    var metadata :=
      if existing.Some? then existing.value.metadata.(isDirty := true, encrypted := encrypted)
      else Metadata(1, now, true, encrypted);
    Doc(key, data, metadata)
  }

  /**
   * What `get` returns for the document found (if any): null when there is
   * none; the decrypted value when a provider is configured, the document is
   * marked encrypted and its data is a string (null if decryption throws);
   * the stored data as it is in every other case.
   */
  function ReadDoc(found: Option<Doc>, crypto: Option<CryptoProvider>): (v: Value)
    ensures found.None? ==> v == Null
    ensures found.Some? && (crypto.None? || !found.value.metadata.encrypted || !found.value.data.Str?) ==> v == found.value.data
    ensures found.Some? && crypto.Some? && found.value.metadata.encrypted && found.value.data.Str? ==>
      v == (match crypto.value.decrypt(found.value.data.s) case Some(x) => x case None => Null)
  {
    match found
    case None => Null
    case Some(doc) =>
      if crypto.Some? && doc.metadata.encrypted && doc.data.Str? then
        match crypto.value.decrypt(doc.data.s)
        case Some(v) => v
        case None => Null
      else doc.data
  }

  /** Without a provider, `get` after `put` returns the value written, whatever was there before. */
  lemma ReadAfterPlainPut(existing: Option<Doc>, key: string, value: Value, now: int)
    ensures ReadDoc(Some(StoredDoc(existing, key, value, None, now)), None) == value
  {
  }

  /** With a provider whose decryption undoes its encryption of `value`, `get` after `put` returns the value. */
  lemma ReadAfterEncryptedPut(existing: Option<Doc>, key: string, value: Value, crypto: CryptoProvider, now: int)
    requires crypto.decrypt(crypto.encrypt(value)) == Some(value)
    ensures ReadDoc(Some(StoredDoc(existing, key, value, Some(crypto), now)), Some(crypto)) == value
  {
  }

  /** A document read back without the provider that encrypted it comes back as the ciphertext. */
  lemma ReadWithoutProviderGivesCiphertext(existing: Option<Doc>, key: string, value: Value, crypto: CryptoProvider, now: int)
    ensures ReadDoc(Some(StoredDoc(existing, key, value, Some(crypto), now)), None) == Str(crypto.encrypt(value))
  {
  }

  /** A decryption that throws reads as null, as does a missing document. */
  lemma ReadFailedDecryptIsNull(doc: Doc, crypto: CryptoProvider)
    requires doc.metadata.encrypted && doc.data.Str? && crypto.decrypt(doc.data.s).None?
    ensures ReadDoc(Some(doc), Some(crypto)) == Null
    ensures ReadDoc(None, Some(crypto)) == Null
  {
  }

  /** Writing a key twice keeps the version of the first write: `put` never bumps it. */
  lemma RewriteKeepsVersion(key: string, v1: Value, v2: Value, crypto: Option<CryptoProvider>, t1: int, t2: int)
    ensures var first := StoredDoc(None, key, v1, crypto, t1);
      var second := StoredDoc(Some(first), key, v2, crypto, t2);
      second.metadata.version == 1 && second.metadata.lastSyncedAt == t1 && second.metadata.isDirty
  {
  }

  class BrowserStorage {
    const crypto: Option<CryptoProvider>
    /** Whether `window.indexedDB` exists, so that `init()` can open the database. */
    const indexedDbAvailable: bool
    /** `dbPromise !== null` */
    var dbOpen: bool
    /** The `documents` object store. */
    var docs: map<string, Doc>
    /** Its keys, in IndexedDB key order, as `getAllKeys` returns them. */
    var keys: seq<string>

    ghost predicate Valid()
      reads this
    {
      && Sorted(keys)
      && (forall k :: k in keys <==> k in docs)
      && (forall k :: k in docs ==> docs[k].id == k)
    }

    /** A store over the database's current contents, not yet opened. */
    constructor(crypto: Option<CryptoProvider>, indexedDbAvailable: bool, docs: map<string, Doc>, keys: seq<string>)
      requires Sorted(keys) && (forall k :: k in keys <==> k in docs) && (forall k :: k in docs ==> docs[k].id == k)
      ensures Valid() && !dbOpen
      ensures this.crypto == crypto && this.indexedDbAvailable == indexedDbAvailable
      ensures this.docs == docs && this.keys == keys
    {
      this.crypto := crypto;
      this.indexedDbAvailable := indexedDbAvailable;
      dbOpen := false;
      this.docs := docs;
      this.keys := keys;
    }

    /** `init()`: without IndexedDB it warns and returns, leaving the database unopened. */
    method Init()
      modifies this`dbOpen
      ensures dbOpen == (old(dbOpen) || indexedDbAvailable)
    {
      if !indexedDbAvailable {
        return;
      }
      dbOpen := true;
    }

    /** `getDB()`: opens on first use; fails with 'Database not initialized' if that did not open it. */
    method GetDb() returns (ok: bool)
      modifies this`dbOpen
      ensures dbOpen == (old(dbOpen) || indexedDbAvailable)
      ensures ok == dbOpen
    {
      if !dbOpen {
        Init();
      }
      ok := dbOpen;
    }

    /** `get(key)` */
    method Get(key: string) returns (r: Result<Value, StorageError>)
      requires Valid()
      modifies this`dbOpen
      ensures Valid()
      ensures dbOpen == (old(dbOpen) || indexedDbAvailable)
      ensures r == if dbOpen then Ok(ReadDoc(if key in docs then Some(docs[key]) else None, crypto))
                   else Err(DatabaseNotInitialized)
    {
      var ok := GetDb();
      if !ok {
        return Err(DatabaseNotInitialized);
      }
      if key !in docs {
        return Ok(Null);
      }
      var result := docs[key];
      if crypto.Some? && result.metadata.encrypted && result.data.Str? {
        var decrypted := crypto.value.decrypt(result.data.s);
        if decrypted.None? {
          // logged: 'Failed to decrypt data'
          return Ok(Null);
        }
        return Ok(decrypted.value);
      }
      return Ok(result.data);
    }

    /**
     * `put(key, value)`: writes document `key` as StoredDoc describes; no
     * other document changes.
     */
    method Put(key: string, value: Value, now: int) returns (r: Result<(), StorageError>)
      requires Valid()
      modifies this
      ensures Valid()
      ensures dbOpen == (old(dbOpen) || indexedDbAvailable)
      ensures !dbOpen ==> r == Err(DatabaseNotInitialized) && docs == old(docs) && keys == old(keys)
      ensures dbOpen ==> r == Ok(())
      ensures dbOpen ==>
        docs == old(docs)[key := StoredDoc(if key in old(docs) then Some(old(docs)[key]) else None, key, value, crypto, now)]
      ensures dbOpen ==> keys == Insert(old(keys), key)
    {
      var ok := GetDb();
      if !ok {
        return Err(DatabaseNotInitialized);
      }
      var existing := if key in docs then Some(docs[key]) else None;
      var dataToStore := value;
      var isEncrypted := false;
      if crypto.Some? {
        dataToStore := Str(crypto.value.encrypt(value));
        isEncrypted := true;
      }
      var metadata := if existing.Some? then existing.value.metadata
                      else Metadata(1, now, true, isEncrypted);
      if existing.Some? {
        metadata := metadata.(isDirty := true);
        metadata := metadata.(encrypted := isEncrypted);
      }
      var doc := Doc(key, dataToStore, metadata);
      assert doc == StoredDoc(existing, key, value, crypto, now);
      docs := docs[key := doc];
      keys := Insert(keys, key);
      return Ok(());
    }

    /** `delete(key)`: removes document `key` only. */
    method Delete(key: string) returns (r: Result<(), StorageError>)
      requires Valid()
      modifies this
      ensures Valid()
      ensures dbOpen == (old(dbOpen) || indexedDbAvailable)
      ensures !dbOpen ==> r == Err(DatabaseNotInitialized) && docs == old(docs) && keys == old(keys)
      ensures dbOpen ==> r == Ok(()) && docs == old(docs) - {key} && keys == Without(old(keys), key)
    {
      var ok := GetDb();
      if !ok {
        return Err(DatabaseNotInitialized);
      }
      docs := docs - {key};
      keys := Without(keys, key);
      return Ok(());
    }

    /** `list(prefix?)`: the document keys, in key order, that start with a non-empty prefix, or all of them. */
    method List(prefix: Option<string>) returns (r: Result<seq<string>, StorageError>)
      requires Valid()
      modifies this`dbOpen
      ensures Valid()
      ensures dbOpen == (old(dbOpen) || indexedDbAvailable)
      ensures !dbOpen ==> r == Err(DatabaseNotInitialized)
      ensures dbOpen ==> r.Ok? && r.value == ListKeys(keys, prefix)
      ensures dbOpen ==> Sorted(r.value)
      ensures dbOpen ==> forall k :: k in r.value <==> k in docs && (prefix.Some? ==> StartsWith(k, prefix.value))
    {
      var ok := GetDb();
      if !ok {
        return Err(DatabaseNotInitialized);
      }
      var strKeys := keys;
      if prefix.Some? && prefix.value != "" {
        return Ok(Filter(strKeys, prefix.value));
      }
      return Ok(strKeys);
    }
  }
}
