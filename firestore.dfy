/**
 * The per-user document store: one document per user id in a configured
 * collection, holding the conversation history under "history" and any other
 * user data under its own key. The remote database is modelled by the map of
 * documents the collection holds.
 */
module Firestore {
  import opened Wrappers

  /** A stored field value. */
  datatype Value = Str(s: string) | Num(n: int) | Bool(b: bool) | Null | List(items: seq<Value>) | Obj(fields: map<string, Value>)

  type Document = map<string, Value>

  /** The constructor's guard: both the database name and the collection name are set and non-empty. */
  predicate Configured(dbName: Option<string>, collectionName: Option<string>) {
    dbName.Some? && dbName.value != "" && collectionName.Some? && collectionName.value != ""
  }

  /**
   * The document save_conversation writes for a user whose stored document is
   * `doc` (None when it does not exist); None when the stored "history" is not a
   * list, whose `extend` then raises.
   */
  function SavedConversation(doc: Option<Document>, exchange: seq<Value>): (r: Option<Document>)
    ensures r.Some? <==> (doc.None? || "history" !in doc.value || doc.value["history"].List?)
    ensures r.Some? ==> r.value.Keys == {"history"}
    ensures r.Some? && doc.Some? && "history" in doc.value ==>
      r.value["history"] == List(doc.value["history"].items + exchange)
    ensures r.Some? && (doc.None? || "history" !in doc.value) ==> r.value["history"] == List(exchange)
  {
    var history: Value := if doc.Some? && "history" in doc.value then doc.value["history"] else List([]);
    assert [] + exchange == exchange;
    if history.List? then Some(map["history" := List(history.items + exchange)]) else None
  }

  /** The document save_user_data writes: the stored one (or an empty one) with `key` set. */
  function SavedUserData(doc: Option<Document>, key: string, input: Value): (r: Document)
    ensures r.Keys == (if doc.Some? then doc.value.Keys else {}) + {key}
    ensures r[key] == input
    ensures doc.Some? ==> forall k :: k in doc.value && k != key ==> r[k] == doc.value[k]
  {
    var userData := if doc.Some? then doc.value else map[];
    userData[key := input]
  }

  /** What get_full_user_data returns: the stored document, or an empty one. */
  function FullUserData(doc: Option<Document>): (r: Document)
    ensures doc.None? ==> r == map[]
    ensures doc.Some? ==> r == doc.value
  {
    doc.GetOr(map[])
  }

  /** Saving two exchanges one after the other stores both, in order. */
  lemma ConversationAccumulates(doc: Option<Document>, first: seq<Value>, second: seq<Value>)
    requires SavedConversation(doc, first).Some?
    ensures SavedConversation(SavedConversation(doc, first), second).Some?
    ensures SavedConversation(SavedConversation(doc, first), second) == SavedConversation(doc, first + second)
  {
    if doc.Some? && "history" in doc.value {
      assert doc.value["history"].items + first + second == doc.value["history"].items + (first + second);
    }
  }

  /** Saving a conversation rewrites the whole document, so other user data under the same id is lost. */
  lemma ConversationDropsUserData(doc: Document, key: string, exchange: seq<Value>)
    requires key != "history" && key in doc
    requires SavedConversation(Some(doc), exchange).Some?
    ensures key !in SavedConversation(Some(doc), exchange).value
  {
  }

  /** A value saved under a key is read back, and saving the same key again overwrites it. */
  lemma UserDataReadBack(doc: Option<Document>, key: string, first: Value, second: Value)
    ensures FullUserData(Some(SavedUserData(doc, key, first)))[key] == first
    ensures SavedUserData(Some(SavedUserData(doc, key, first)), key, second) == SavedUserData(doc, key, second)
  {
  }

  /** The client bound to one collection; `documents` maps each user id to its document. */
  class FirestoreClient {
    var documents: map<string, Document>

    constructor(stored: map<string, Document>)
      ensures documents == stored
    {
      documents := stored;
    }

    /** The stored document of `userId`, if it exists. */
    function Lookup(userId: string): Option<Document>
      reads this
    {
      if userId in documents then Some(documents[userId]) else None
    }

    /** save_conversation: appends `exchange` to the user's history; `ok` is false where the Python raises. */
    method SaveConversation(userId: string, exchange: seq<Value>) returns (ok: bool)
      modifies this
      ensures ok == SavedConversation(old(Lookup(userId)), exchange).Some?
      ensures ok ==> documents == old(documents)[userId := SavedConversation(old(Lookup(userId)), exchange).value]
      ensures !ok ==> documents == old(documents)
    {
      var saved := SavedConversation(Lookup(userId), exchange);
      if saved.Some? {
        documents := documents[userId := saved.value];
        ok := true;
      } else {
        ok := false;
      }
    }

    /** save_user_data: stores `input` under `key` in the user's document. */
    method SaveUserData(userId: string, key: string, input: Value)
      modifies this
      ensures documents == old(documents)[userId := SavedUserData(old(Lookup(userId)), key, input)]
    {
      documents := documents[userId := SavedUserData(Lookup(userId), key, input)];
    }

    /** get_full_user_data: the user's document, or an empty one. */
    method GetFullUserData(userId: string) returns (data: Document)
      ensures userId in documents ==> data == documents[userId]
      ensures userId !in documents ==> data == map[]
    {
      data := FullUserData(Lookup(userId));
    }

    /** delete_user: removes the user's document; deleting a missing one is no error. */
    method DeleteUser(userId: string)
      modifies this
      ensures documents == old(documents) - {userId}
      ensures userId !in documents
    {
      documents := documents - {userId};
    }
  }

  /** The constructor: refuses to connect unless both names are configured. */
  method Connect(dbName: Option<string>, collectionName: Option<string>, stored: map<string, Document>)
    returns (client: FirestoreClient?)
    ensures client == null <==> !Configured(dbName, collectionName)
    ensures client != null ==> fresh(client) && client.documents == stored
  {
    if !Configured(dbName, collectionName) {
      return null;
    }
    client := new FirestoreClient(stored);
  }
}
